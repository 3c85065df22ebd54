/**
 * The part of the PHP runtime the kernel relies on: dynamic values, ordered
 * arrays with string keys, `empty()`, `strpos`, `explode`/`implode`,
 * `str_replace` of one character, `substr`, `substr_replace` with length 0,
 * and the file system seen through `file_exists`, `file_get_contents` and
 * `file_put_contents`.
 */
module Php {

  datatype Option<+T> = None | Some(value: T)

  datatype Result<+T, +E> = Success(value: T) | Failure(error: E)

  /** A call that returns normally (`Pass`) or throws (`Fail`). */
  datatype Outcome<+E> = Pass | Fail(error: E)

  /** A PHP value, as far as the kernel looks into one. Arrays keep insertion order. */
  datatype Value =
    | Null
    | Bool(b: bool)
    | Int(i: int)
    | Str(s: string)
    | Array(entries: seq<(string, Value)>)
    | Object(className: string, arg: string)

  /** A PHP array with string keys, in insertion order. */
  type Params = seq<(string, Value)>

  predicate HasKey(a: Params, k: string)
  {
    exists i :: 0 <= i < |a| && a[i].0 == k
  }

  /** Every PHP array has distinct keys. */
  predicate DistinctKeys(a: Params)
  {
    forall i, j :: 0 <= i < j < |a| ==> a[i].0 != a[j].0
  }

  lemma HasKeyTail(a: Params, k: string)
    requires |a| > 0 && a[0].0 != k
    ensures HasKey(a, k) <==> HasKey(a[1..], k)
  {
    if HasKey(a, k) {
      var i :| 0 <= i < |a| && a[i].0 == k;
      assert a[1..][i - 1].0 == k;
    }
    if HasKey(a[1..], k) {
      var i :| 0 <= i < |a[1..]| && a[1..][i].0 == k;
      assert a[i + 1].0 == k;
    }
  }

  /** `$a[$k]` when `array_key_exists($k, $a)`; None when the key is missing. */
  function Get(a: Params, k: string): (r: Option<Value>)
    ensures r.Some? <==> HasKey(a, k)
    ensures r.Some? ==> exists i :: 0 <= i < |a| && a[i] == (k, r.value)
  {
    if |a| == 0 then None
    else if a[0].0 == k then Some(a[0].1)
    else
      HasKeyTail(a, k);
      var r := Get(a[1..], k);
      assert r.Some? ==> exists i :: 0 <= i < |a| && a[i] == (k, r.value) by {
        if r.Some? {
          var i :| 0 <= i < |a[1..]| && a[1..][i] == (k, r.value);
          assert a[i + 1] == (k, r.value);
        }
      }
      r
  }

  /**
   * `$a[$k] = $v`: an existing key keeps its place and takes the new value;
   * a new key is appended.
   */
  function Put(a: Params, k: string, v: Value): (r: Params)
    ensures !HasKey(a, k) ==> r == a + [(k, v)]
    ensures |r| == if HasKey(a, k) then |a| else |a| + 1
  {
    if |a| == 0 then [(k, v)]
    else if a[0].0 == k then
      assert HasKey(a, k) by { assert a[0].0 == k; }
      [(k, v)] + a[1..]
    else
      HasKeyTail(a, k);
      [a[0]] + Put(a[1..], k, v)
  }

  /** On an array with distinct keys, assigning to a present key changes that entry and nothing else. */
  lemma {:induction false} PutReplaces(a: Params, k: string, v: Value)
    requires DistinctKeys(a) && HasKey(a, k)
    ensures |Put(a, k, v)| == |a|
    ensures forall i :: 0 <= i < |a| ==> Put(a, k, v)[i] == if a[i].0 == k then (k, v) else a[i]
  {
    if a[0].0 == k {
      forall i | 0 < i < |a| ensures a[i].0 != k {
        assert a[0].0 != a[i].0;
      }
    } else {
      HasKeyTail(a, k);
      PutReplaces(a[1..], k, v);
    }
  }

  /** Assignment keeps an array's keys distinct. */
  lemma PutKeepsKeysDistinct(a: Params, k: string, v: Value)
    requires DistinctKeys(a)
    ensures DistinctKeys(Put(a, k, v))
  {
    if HasKey(a, k) {
      PutReplaces(a, k, v);
    } else {
      var r := Put(a, k, v);
      forall i, j | 0 <= i < j < |r| ensures r[i].0 != r[j].0 {
        if j == |a| {
          assert a[i].0 != k;
        }
      }
    }
  }

  /** `$a[$k]` after `$a[$k] = $v` is v. */
  lemma {:induction false} GetPutSame(a: Params, k: string, v: Value)
    ensures Get(Put(a, k, v), k) == Some(v)
  {
    if |a| > 0 && a[0].0 != k {
      GetPutSame(a[1..], k, v);
    }
  }

  /** Assigning to one key leaves what every other key reads unchanged. */
  lemma {:induction false} GetPutOther(a: Params, k: string, v: Value, other: string)
    requires other != k
    ensures Get(Put(a, k, v), other) == Get(a, other)
  {
    if |a| > 0 && a[0].0 != k && a[0].0 != other {
      GetPutOther(a[1..], k, v, other);
    }
  }

  /** PHP's conversion to boolean: null, false, 0, "", "0" and the empty array are false. */
  function ToBool(v: Value): bool
  {
    match v
    case Null => false
    case Bool(b) => b
    case Int(i) => i != 0
    case Str(s) => s != "" && s != "0"
    case Array(entries) => |entries| > 0
    case Object(_, _) => true
  }

  /** PHP's `empty()`: not set (null) or loosely equal to false; an object is never empty. */
  function Empty(v: Value): (r: bool)
    ensures r <==> v == Null || !ToBool(v)
    ensures v.Object? ==> !r
  {
    match v
    case Null => true
    case Bool(b) => !b
    case Int(i) => i == 0
    case Str(s) => s == "" || s == "0"
    case Array(entries) => |entries| == 0
    case Object(_, _) => false
  }

  function DigitString(n: nat): (r: string)
    ensures |r| >= 1
    ensures forall k :: 0 <= k < |r| ==> '0' <= r[k] <= '9'
  {
    if n < 10 then [(48 + n) as char] else DigitString(n / 10) + [(48 + n % 10) as char]
  }

  /** The decimal text of an integer, as PHP converts an int to a string. */
  function IntString(i: int): (r: string)
    ensures |r| >= 1
    ensures forall k :: 0 <= k < |r| ==> r[k] == '-' || '0' <= r[k] <= '9'
  {
    if i < 0 then "-" + DigitString(-i) else DigitString(i)
  }

  /** A string PHP 8 treats as numeric in comparisons: here, any that starts with a digit, sign, dot or blank. */
  predicate MayBeNumeric(s: string)
  {
    |s| > 0 && (s[0] in "0123456789+-. \t\n\r")
  }

  /**
   * PHP 8's loose `$v == $s` against a string s that is not numeric: null
   * compares as "", a bool compares with s converted to bool, an int is
   * compared as its decimal text, a string by its characters; an array or an
   * object (without `__toString`) is never equal to a string.
   */
  predicate LooseEqualsText(v: Value, s: string)
    requires !MayBeNumeric(s)
  {
    match v
    case Null => s == ""
    case Bool(b) => b == ToBool(Str(s))
    case Int(i) => IntString(i) == s
    case Str(t) => t == s
    case Array(_) => false
    case Object(_, _) => false
  }

  /** The array key PHP uses for `$a[$v]`: a bool becomes 0 or 1, null becomes "", an int its text; arrays and objects are illegal offsets. */
  function KeyOf(v: Value): Option<string>
  {
    match v
    case Null => Some("")
    case Bool(b) => Some(if b then "1" else "0")
    case Int(i) => Some(IntString(i))
    case Str(s) => Some(s)
    case Array(_) => None
    case Object(_, _) => None
  }

  // ---------------------------------------------------------------- strings

  predicate OccursAt(s: string, pat: string, i: nat)
  {
    i + |pat| <= |s| && s[i..i + |pat|] == pat
  }

  function IndexFrom(s: string, pat: string, from: nat): (r: Option<nat>)
    ensures r.Some? ==> from <= r.value && OccursAt(s, pat, r.value)
    ensures r.Some? ==> forall j: nat :: from <= j < r.value ==> !OccursAt(s, pat, j)
    ensures r.None? ==> forall j: nat :: from <= j ==> !OccursAt(s, pat, j)
    decreases |s| - from
  {
    if from + |pat| > |s| then None
    else if s[from..from + |pat|] == pat then Some(from)
    else IndexFrom(s, pat, from + 1)
  }

  /** `strpos($s, $pat)`: the first offset of pat in s; None where PHP returns false. */
  function StrPos(s: string, pat: string): (r: Option<nat>)
    ensures r.Some? ==> OccursAt(s, pat, r.value)
    ensures r.Some? ==> forall j: nat :: j < r.value ==> !OccursAt(s, pat, j)
    ensures r.None? <==> forall j: nat :: !OccursAt(s, pat, j)
  {
    IndexFrom(s, pat, 0)
  }

  /** `implode($sep, $parts)`. */
  function Join(parts: seq<string>, sep: char): string
  {
    if |parts| == 0 then ""
    else if |parts| == 1 then parts[0]
    else parts[0] + [sep] + Join(parts[1..], sep)
  }

  /**
   * `explode($sep, $s)` for a one-character separator: the pieces between
   * separators, at least one, none containing the separator, and joining
   * them back gives s.
   */
  function Split(s: string, sep: char): (parts: seq<string>)
    ensures |parts| >= 1
    ensures forall i :: 0 <= i < |parts| ==> sep !in parts[i]
    ensures Join(parts, sep) == s
  {
    if |s| == 0 then [""]
    else
      var rest := Split(s[1..], sep);
      if s[0] == sep then
        assert [sep] + s[1..] == s;
        [""] + rest
      else
        var parts := [[s[0]] + rest[0]] + rest[1..];
        assert parts[1..] == rest[1..];
        assert [s[0]] + s[1..] == s;
        parts
  }

  lemma {:induction false} SplitNoSeparator(s: string, sep: char)
    requires sep !in s
    ensures Split(s, sep) == [s]
  {
    if |s| > 0 {
      SplitNoSeparator(s[1..], sep);
      assert [s[0]] + s[1..] == s;
    }
  }

  lemma {:induction false} SplitCons(a: string, sep: char, rest: string)
    requires sep !in a
    ensures Split(a + [sep] + rest, sep) == [a] + Split(rest, sep)
  {
    var s := a + [sep] + rest;
    if |a| == 0 {
      assert s[1..] == rest;
    } else {
      assert s[1..] == a[1..] + [sep] + rest;
      SplitCons(a[1..], sep, rest);
      assert [a[0]] + a[1..] == a;
    }
  }

  /** explode undoes implode when no piece contains the separator. */
  lemma {:induction false} SplitJoin(parts: seq<string>, sep: char)
    requires |parts| >= 1
    requires forall i :: 0 <= i < |parts| ==> sep !in parts[i]
    ensures Split(Join(parts, sep), sep) == parts
  {
    if |parts| == 1 {
      SplitNoSeparator(parts[0], sep);
    } else {
      SplitJoin(parts[1..], sep);
      SplitCons(parts[0], sep, Join(parts[1..], sep));
    }
  }

  lemma {:induction false} JoinSnoc(parts: seq<string>, last: string, sep: char)
    requires |parts| >= 1
    ensures Join(parts + [last], sep) == Join(parts, sep) + [sep] + last
  {
    if |parts| > 1 {
      assert (parts + [last])[1..] == parts[1..] + [last];
      JoinSnoc(parts[1..], last, sep);
    }
  }

  /** Adding a separator-free last piece adds exactly one element to explode's result. */
  lemma SplitSnoc(init: string, sep: char, last: string)
    requires sep !in last
    ensures Split(init + [sep] + last, sep) == Split(init, sep) + [last]
  {
    var parts := Split(init, sep);
    JoinSnoc(parts, last, sep);
    SplitJoin(parts + [last], sep);
  }

  /** `str_replace($from, $to, $s)` for one-character search and replacement strings. */
  function ReplaceChar(s: string, from: char, to: char): (r: string)
    ensures |r| == |s|
    ensures forall i :: 0 <= i < |s| ==> r[i] == if s[i] == from then to else s[i]
    ensures from != to ==> from !in r
  {
    if |s| == 0 then ""
    else [if s[0] == from then to else s[0]] + ReplaceChar(s[1..], from, to)
  }

  /** `substr($s, $start)` for a non-negative start: the last |s| - start characters, or "" (PHP 8) once start reaches the end. */
  function SubstrFrom(s: string, start: nat): (r: string)
    ensures |r| == if start < |s| then |s| - start else 0
    ensures s == s[..|s| - |r|] + r
  {
    if start < |s| then s[start..] else ""
  }

  /** `substr($s, 0, $len)` for a non-negative length: the first len characters, or all of s when it is shorter. */
  function SubstrHead(s: string, len: nat): (r: string)
    ensures r <= s
    ensures |r| == if len < |s| then len else |s|
  {
    if len < |s| then s[..len] else s
  }

  /** `substr_replace($s, $piece, $at, 0)`: piece inserted before offset at; an offset past the end appends. */
  function InsertAt(s: string, piece: string, at: nat): string
  {
    if at <= |s| then s[..at] + piece + s[at..] else s + piece
  }

  /** What substr_replace with length 0 leaves: the text before the offset, the piece, then the rest of s. */
  lemma InsertAtLayout(s: string, piece: string, at: nat)
    ensures var r := InsertAt(s, piece, at);
            var a := if at <= |s| then at else |s|;
            && |r| == |s| + |piece|
            && r[..a] == s[..a]
            && r[a..a + |piece|] == piece
            && r[a + |piece|..] == s[a..]
  {
  }

  // ------------------------------------------------------------ file system

  /**
   * What the process sees outside itself: the files on disk and the error
   * pages shown to the client so far.
   */
  class Host {
    var files: map<string, string>
    var errorPages: seq<string>

    constructor (files: map<string, string>)
      ensures this.files == files && errorPages == []
    {
      this.files := files;
      errorPages := [];
    }
  }

  /** `file_get_contents($path)`, with PHP's false (missing file) read as "" the way file_put_contents writes it. */
  function ReadFile(files: map<string, string>, path: string): string
  {
    if path in files then files[path] else ""
  }

  /** file_get_contents after file_put_contents: the path reads what was written, every other path is untouched. */
  lemma ReadAfterWrite(files: map<string, string>, path: string, text: string, other: string)
    ensures ReadFile(files[path := text], path) == text
    ensures other != path ==> ReadFile(files[path := text], other) == ReadFile(files, other)
  {
  }
}
