/** Meta-parameter configuration: each meta-parameter's value is a
    comma-separated list of concrete parameter names, split with
    String.split(",", -1) (empty and trailing fields kept) and each field
    trimmed with String.trim(). */
module MetaParameters {

  /** The characters String.trim() removes: every char up to U+0020. */
  predicate IsTrimmed(c: char)
  {
    c <= ' '
  }

  /** The first position at or after `lo` that String.trim() keeps: every
      character skipped is trimmable, and the one found (if any) is not. */
  function FirstKept(s: string, lo: nat): (k: nat)
    requires lo <= |s|
    ensures lo <= k <= |s|
    ensures forall j :: lo <= j < k ==> IsTrimmed(s[j])
    ensures k == |s| || !IsTrimmed(s[k])
    decreases |s| - lo
  {
    if lo < |s| && IsTrimmed(s[lo]) then FirstKept(s, lo + 1) else lo
  }

  /** The end (exclusive) of what String.trim() keeps of s[lo..hi]: every
      character dropped from the end is trimmable, and the last one kept (if
      any) is not. */
  function EndKept(s: string, lo: nat, hi: nat): (k: nat)
    requires lo <= hi <= |s|
    ensures lo <= k <= hi
    ensures forall j :: k <= j < hi ==> IsTrimmed(s[j])
    ensures k == lo || !IsTrimmed(s[k - 1])
    decreases hi
  {
    if lo < hi && IsTrimmed(s[hi - 1]) then EndKept(s, lo, hi - 1) else hi
  }

  /** String.trim(): the infix of `s` left once the trimmable characters at
      both ends are gone. It neither starts nor ends with one, and everything
      removed on either side is trimmable. */
  function Trim(s: string): (r: string)
    ensures r == [] || (!IsTrimmed(r[0]) && !IsTrimmed(r[|r| - 1]))
    ensures var i := FirstKept(s, 0);
      i + |r| <= |s| && r == s[i..i + |r|]
      && (forall k :: 0 <= k < i ==> IsTrimmed(s[k]))
      && (forall k :: i + |r| <= k < |s| ==> IsTrimmed(s[k]))
  {
    var lo := FirstKept(s, 0);
    s[lo..EndKept(s, lo, |s|)]
  }

  /** The number of commas in `s`. */
  function Commas(s: string): nat
  {
    if s == [] then 0 else (if s[0] == ',' then 1 else 0) + Commas(s[1..])
  }

  /** String.split(",", -1): the fields between commas, empty ones included
      (leading, inner and trailing alike); one more field than commas, and no
      field contains a comma. */
  function SplitFields(s: string): (fields: seq<string>)
    ensures |fields| == Commas(s) + 1
    ensures forall j :: 0 <= j < |fields| ==> ',' !in fields[j]
    decreases |s|
  {
    if s == [] then [[]]
    else
      var rest := SplitFields(s[1..]);
      if s[0] == ',' then [[]] + rest
      else [[s[0]] + rest[0]] + rest[1..]
  }

  /** The fields written back with commas between them. */
  function Join(fields: seq<string>): string
    requires fields != []
  {
    if |fields| == 1 then fields[0] else fields[0] + "," + Join(fields[1..])
  }

  /** Splitting loses nothing: the fields joined back give the original. */
  lemma {:induction false} JoinSplit(s: string)
    ensures Join(SplitFields(s)) == s
    decreases |s|
  {
    if s != [] {
      var rest := SplitFields(s[1..]);
      JoinSplit(s[1..]);
      if s[0] == ',' {
        assert SplitFields(s) == [[]] + rest;
        assert s == [] + "," + s[1..];
      } else if |rest| == 1 {
        assert SplitFields(s) == [[s[0]] + rest[0]];
        assert s == [s[0]] + s[1..];
      } else {
        var fields := SplitFields(s);
        assert fields == [[s[0]] + rest[0]] + rest[1..];
        assert fields[1..] == rest[1..];
        assert Join(rest) == rest[0] + "," + Join(rest[1..]);
        assert s == [s[0]] + s[1..];
      }
    }
  }

  lemma {:induction false} SplitField(f: string, tail: string)
    requires ',' !in f
    ensures SplitFields(f + "," + tail) == [f] + SplitFields(tail)
    ensures SplitFields(f) == [f]
    decreases |f|
  {
    if f == [] {
      assert f + "," + tail == [','] + tail;
      assert ([','] + tail)[1..] == tail;
    } else {
      SplitField(f[1..], tail);
      assert (f + "," + tail)[1..] == f[1..] + "," + tail;
      assert [f[0]] + f[1..] == f;
    }
  }

  /** The split is the only decomposition: comma-free fields joined with
      commas split back into exactly those fields. */
  lemma {:induction false} SplitJoin(fields: seq<string>)
    requires fields != []
    requires forall j :: 0 <= j < |fields| ==> ',' !in fields[j]
    ensures SplitFields(Join(fields)) == fields
    decreases |fields|
  {
    SplitField(fields[0], "");
    if |fields| > 1 {
      SplitJoin(fields[1..]);
      SplitField(fields[0], Join(fields[1..]));
    }
  }

  /** `names` is what the configuration value `value` is parsed into: one
      name per comma-separated field, in order, each trimmed. */
  ghost predicate IsParseOf(names: seq<string>, value: string)
  {
    |names| == |SplitFields(value)|
    && forall j :: 0 <= j < |names| ==> names[j] == Trim(SplitFields(value)[j])
  }

  /** The split/trim loop of setupTransformMap for one meta-parameter value:
      with k commas it gives exactly k + 1 names (empty fields and repeated
      names kept), name j being field j trimmed. */
  method ParseNames(value: string) returns (names: seq<string>)
    ensures |names| == Commas(value) + 1
    ensures forall j :: 0 <= j < |names| ==> names[j] == Trim(SplitFields(value)[j])
  {
    var fields := SplitFields(value);
    names := [];
    for i := 0 to |fields|
      invariant |names| == i
      invariant forall j :: 0 <= j < i ==> names[j] == Trim(fields[j])
    {
      names := names + [Trim(fields[i])];
    }
  }

  /** The loop of setupTransformMap over the meta-parameter properties, taken
      in an unspecified order: every property becomes a meta-parameter whose
      list is its parsed value, and there are no others. */
  method BuildMetaParameterMap(props: map<string, string>) returns (meta: map<string, seq<string>>)
    ensures meta.Keys == props.Keys
    ensures forall name :: name in meta ==> IsParseOf(meta[name], props[name])
  {
    meta := map[];
    var pending := props.Keys;
    while pending != {}
      invariant pending <= props.Keys
      invariant meta.Keys == props.Keys - pending
      invariant forall name :: name in meta ==> IsParseOf(meta[name], props[name])
      decreases pending
    {
      var name :| name in pending;
      var names := ParseNames(props[name]);
      meta := meta[name := names];
      pending := pending - {name};
    }
  }
}
