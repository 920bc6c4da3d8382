/** The few pieces of Python's built-in behaviour that the agent's tools rely on:
    `None`, truthiness of an optional string, and the `str` methods `join`,
    `split`, `replace` and `startswith`, all on `string` = `seq<char>`. */
module Python {

  /** A value that may be `None`; a JSON key that is absent reads as `None` too. */
  datatype Option<+T> = None | Some(value: T)

  /** Python truthiness of an optional string: `None` and `""` are both false. */
  predicate Truthy(s: Option<string>)
  {
    s.Some? && s.value != ""
  }

  /** Python truthiness of an optional list: `None` and `[]` are both false. */
  predicate TruthyList<T>(xs: Option<seq<T>>)
  {
    xs.Some? && xs.value != []
  }

  /** `s.startswith(prefix)` */
  predicate StartsWith(s: string, prefix: string)
  {
    |prefix| <= |s| && s[..|prefix|] == prefix
  }

  /** The total number of characters in `parts`. */
  function TotalLength(parts: seq<string>): nat
  {
    if parts == [] then 0 else |parts[0]| + TotalLength(parts[1..])
  }

  /** `sep.join(parts)`: the parts in order with one `sep` between neighbours. */
  function Join(sep: string, parts: seq<string>): (r: string)
    ensures parts == [] ==> r == ""
    ensures parts != [] ==> |r| == TotalLength(parts) + (|parts| - 1) * |sep|
    ensures parts != [] ==> StartsWith(r, parts[0])
  {
    if |parts| == 0 then ""
    else if |parts| == 1 then parts[0]
    else parts[0] + sep + Join(sep, parts[1..])
  }

  /** Where the `k`-th part starts in `sep.join(parts)`: after the parts
      before it and one separator after each of them. */
  function PartStart(sep: string, parts: seq<string>, k: nat): nat
    requires k <= |parts|
  {
    TotalLength(parts[..k]) + k * |sep|
  }

  /** The content of `sep.join(parts)`: every part stands at its place, and a
      separator stands right before every part but the first. */
  lemma {:induction false} JoinLayout(sep: string, parts: seq<string>, k: nat)
    requires k < |parts|
    ensures PartStart(sep, parts, k) + |parts[k]| <= |Join(sep, parts)|
    ensures Join(sep, parts)[PartStart(sep, parts, k)..PartStart(sep, parts, k) + |parts[k]|] == parts[k]
    ensures k > 0 ==>
      PartStart(sep, parts, k) >= |sep| &&
      Join(sep, parts)[PartStart(sep, parts, k) - |sep|..PartStart(sep, parts, k)] == sep
  {
    var t := Join(sep, parts);
    if k == 0 {
      assert parts[..0] == [];
    } else {
      var rest := parts[1..];
      JoinLayout(sep, rest, k - 1);
      assert parts[..k] == [parts[0]] + rest[..k - 1];
      assert parts[..k][1..] == rest[..k - 1];
      assert TotalLength(parts[..k]) == |parts[0]| + TotalLength(rest[..k - 1]);
      assert k * |sep| == (k - 1) * |sep| + |sep|;
      var off := |parts[0]| + |sep|;
      assert PartStart(sep, parts, k) == off + PartStart(sep, rest, k - 1);
      assert t == parts[0] + sep + Join(sep, rest);
      assert t[off..] == Join(sep, rest);
      if k == 1 {
        assert t[off - |sep|..off] == sep;
      }
    }
  }

  /** `s.split(sep)` for a one-character separator: the pieces between separators,
      so `"".split(sep)` is `[""]` and the result is never empty. */
  function Split(sep: char, s: string): (r: seq<string>)
    ensures |r| > 0
    ensures |r| == 1 <==> sep !in s
  {
    if s == [] then [""]
    else
      var rest := Split(sep, s[1..]);
      if s[0] == sep then [""] + rest
      else [[s[0]] + rest[0]] + rest[1..]
  }

  /** `s.replace(target, replacement)` for one-character arguments: every
      occurrence of `target` becomes `replacement`, nothing else changes. */
  function Replace(s: string, target: char, replacement: char): (r: string)
    ensures |r| == |s|
    ensures forall i :: 0 <= i < |s| ==> r[i] == if s[i] == target then replacement else s[i]
    ensures target != replacement ==> target !in r
  {
    if s == [] then []
    else [if s[0] == target then replacement else s[0]] + Replace(s[1..], target, replacement)
  }

  /** A piece that holds no separator splits to itself. */
  lemma {:induction false} SplitWithoutSeparator(sep: char, p: string)
    requires sep !in p
    ensures Split(sep, p) == [p]
  {
    if p != [] {
      SplitWithoutSeparator(sep, p[1..]);
      assert [p[0]] + p[1..] == p;
    }
  }

  /** Splitting `p + sep + t` yields `p` and then the pieces of `t`, when `p`
      holds no separator. */
  lemma {:induction false} SplitAfterPiece(sep: char, p: string, t: string)
    requires sep !in p
    ensures Split(sep, p + [sep] + t) == [p] + Split(sep, t)
  {
    if p == [] {
      assert p + [sep] + t == [sep] + t;
      assert ([sep] + t)[1..] == t;
    } else {
      var s := p + [sep] + t;
      assert s[1..] == p[1..] + [sep] + t;
      SplitAfterPiece(sep, p[1..], t);
      assert [p[0]] + p[1..] == p;
    }
  }

  /** Round trip of `join` and `split`: joining pieces that hold no separator
      and splitting the result on that separator gives the pieces back. */
  lemma {:induction false} SplitJoin(sep: char, parts: seq<string>)
    requires parts != []
    requires forall i :: 0 <= i < |parts| ==> sep !in parts[i]
    ensures Split(sep, Join([sep], parts)) == parts
  {
    if |parts| == 1 {
      SplitWithoutSeparator(sep, parts[0]);
    } else {
      SplitJoin(sep, parts[1..]);
      SplitAfterPiece(sep, parts[0], Join([sep], parts[1..]));
      assert [parts[0]] + parts[1..] == parts;
    }
  }
}
