/** HTTP header collections with the case-insensitive keys of the `requests`
    library: a header is stored under its lower-cased name together with the
    spelling and value most recently given for it. */
module HeaderMap {
  import opened Wrappers
  import Text

  datatype Header = Header(name: string, value: string)

  type Headers = map<string, Header>

  /** The key a name is stored under: its ASCII lower-casing. Python's
      `str.lower` also folds non-ASCII letters, which this does not. */
  function Key(name: string): string {
    Text.Lower(name)
  }

  /** `headers.get(name)` */
  function Lookup(h: Headers, name: string): Option<string> {
    if Key(name) in h then Some(h[Key(name)].value) else None
  }

  /** `headers[e.name] = e.value` */
  function Put(h: Headers, e: Header): Headers {
    h[Key(e.name) := e]
  }

  /** `headers.update(extra)`, applying the entries in order. */
  function Update(h: Headers, extra: seq<Header>): Headers
    decreases |extra|
  {
    if extra == [] then h else Update(Put(h, extra[0]), extra[1..])
  }

  /** Reference reading of an update: the value of the LAST entry of `extra`
      whose name matches `name` case-insensitively. */
  function LastValue(extra: seq<Header>, name: string): Option<string> {
    if extra == [] then None
    else if Key(extra[|extra| - 1].name) == Key(name) then Some(extra[|extra| - 1].value)
    else LastValue(extra[..|extra| - 1], name)
  }

  function Overlay(later: Option<string>, earlier: Option<string>): Option<string> {
    if later.Some? then later else earlier
  }

  lemma {:induction false} LastValueCons(e: Header, rest: seq<Header>, name: string)
    ensures LastValue([e] + rest, name)
         == Overlay(LastValue(rest, name), if Key(e.name) == Key(name) then Some(e.value) else None)
    decreases |rest|
  {
    var s := [e] + rest;
    if rest == [] {
      assert s[..|s| - 1] == [];
    } else {
      assert s[|s| - 1] == rest[|rest| - 1];
      assert s[..|s| - 1] == [e] + rest[..|rest| - 1];
      LastValueCons(e, rest[..|rest| - 1], name);
    }
  }

  lemma LastValueSnoc(rest: seq<Header>, e: Header, name: string)
    ensures LastValue(rest + [e], name)
         == if Key(e.name) == Key(name) then Some(e.value) else LastValue(rest, name)
  {
    assert (rest + [e])[..|rest|] == rest;
  }

  /** The last value among three entries with distinct names. */
  lemma LastValueOfThree(e0: Header, e1: Header, e2: Header, name: string)
    requires Key(e0.name) != Key(e1.name) && Key(e0.name) != Key(e2.name) && Key(e1.name) != Key(e2.name)
    ensures LastValue([e0, e1, e2], name) ==
      if Key(name) == Key(e0.name) then Some(e0.value)
      else if Key(name) == Key(e1.name) then Some(e1.value)
      else if Key(name) == Key(e2.name) then Some(e2.value)
      else None
  {
    LastValueSnoc([], e0, name);
    LastValueSnoc([e0], e1, name);
    LastValueSnoc([e0, e1], e2, name);
    assert [] + [e0] == [e0] && [e0] + [e1] == [e0, e1] && [e0, e1] + [e2] == [e0, e1, e2];
  }

  /** Merging `extra` over `h`: a name given in `extra` takes its last value
      there, whatever its spelling; every other name keeps its value in `h`. */
  lemma {:induction false} UpdateLookup(h: Headers, extra: seq<Header>, name: string)
    ensures Lookup(Update(h, extra), name) == Overlay(LastValue(extra, name), Lookup(h, name))
    decreases |extra|
  {
    if extra != [] {
      var e := extra[0];
      var rest := extra[1..];
      assert extra == [e] + rest;
      UpdateLookup(Put(h, e), rest, name);
      LastValueCons(e, rest, name);
    }
  }

  /** Update only adds keys: nothing present before disappears. */
  lemma {:induction false} UpdateKeepsKeys(h: Headers, extra: seq<Header>)
    ensures h.Keys <= Update(h, extra).Keys
    decreases |extra|
  {
    if extra != [] {
      UpdateKeepsKeys(Put(h, extra[0]), extra[1..]);
    }
  }
}
