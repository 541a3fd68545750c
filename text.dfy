/**
 * String operations the detectors and the quantisation script rely on:
 * Python's `in` on strings, `str.endswith`, `str.rfind`, `", ".join` and
 * the data-URL prefix strip `s.split(',')[1]`.
 */
module Text {

  /** `sub` occurs in `s` starting at position `i`. */
  predicate OccursAt(s: string, sub: string, i: int)
  {
    0 <= i <= |s| - |sub| && s[i..i + |sub|] == sub
  }

  /** Python's `sub in s` for strings. */
  predicate Contains(s: string, sub: string)
  {
    exists i :: 0 <= i <= |s| - |sub| && OccursAt(s, sub, i)
  }

  /** Python's `s.endswith(suffix)`. */
  predicate EndsWith(s: string, suffix: string)
  {
    |suffix| <= |s| && s[|s| - |suffix|..] == suffix
  }

  /** Position of the first `c` in `s`, or `|s|` when there is none. */
  function FirstIndex(s: string, c: char): (r: nat)
    ensures r <= |s|
    ensures r < |s| ==> s[r] == c
    ensures forall j :: 0 <= j < r ==> s[j] != c
  {
    if |s| == 0 then 0
    else if s[0] == c then 0
    else 1 + FirstIndex(s[1..], c)
  }

  /** Python's `s.rfind(c)`: the last position of `c`, or -1. */
  function LastIndex(s: string, c: char): (r: int)
    ensures -1 <= r < |s|
    ensures r >= 0 ==> s[r] == c
    ensures forall j :: r < j < |s| ==> s[j] != c
  {
    if |s| == 0 then -1
    else if s[|s| - 1] == c then |s| - 1
    else LastIndex(s[..|s| - 1], c)
  }

  /** Python's `sep.join(parts)`. */
  function Join(parts: seq<string>, sep: string): string
  {
    if |parts| == 0 then ""
    else if |parts| == 1 then parts[0]
    else parts[0] + sep + Join(parts[1..], sep)
  }

  /**
   * The data-URL prefix strip of both base64 entry points: a string holding a
   * comma is replaced by its second comma-separated field
   * (`s.split(',')[1]`), a string without one is kept.
   */
  function StripDataUrlPrefix(s: string): (r: string)
    ensures ',' !in s ==> r == s
    ensures ',' in s ==> ',' !in r
    ensures ',' in s ==>
      var p := FirstIndex(s, ',');
      p < |s| && ',' !in s[..p] && p + 1 + |r| <= |s| && s[p + 1..p + 1 + |r|] == r &&
      (p + 1 + |r| == |s| || s[p + 1 + |r|] == ',')
  {
    if ',' in s then
      var p := FirstIndex(s, ',');
      var rest := s[p + 1..];
      var q := FirstIndex(rest, ',');
      assert s[p + 1..p + 1 + q] == rest[..q];
      assert ',' !in s[..p] by {
        forall j | 0 <= j < p ensures s[..p][j] != ',' { }
      }
      rest[..q]
    else
      s
  }

  /** A data URL `header,payload` strips to its payload when neither part holds a comma. */
  lemma StripDataUrlRoundTrip(header: string, payload: string)
    requires ',' !in header && ',' !in payload
    ensures StripDataUrlPrefix(header + "," + payload) == payload
  {
    var s := header + "," + payload;
    assert s[|header|] == ',';
    assert s[..|header|] == header;
    assert s[|header| + 1..] == payload;
  }
}
