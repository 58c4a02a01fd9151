/** The JavaScript string operations the UI relies on: `String.prototype.includes` and
    `String.prototype.slice`. A Dafny `char` is a Unicode scalar value, whereas JavaScript
    indexes UTF-16 code units; the two agree on strings without characters outside the Basic
    Multilingual Plane, which includes every Stellar address (those are ASCII). */
module Text {

  function Min(a: int, b: int): int { if a <= b then a else b }

  /** `sub` occurs in `s` starting at position `i`. */
  predicate OccursAt(s: string, sub: string, i: int) {
    0 <= i && i + |sub| <= |s| && s[i..i + |sub|] == sub
  }

  /** `s.includes(sub)`: `sub` occurs in `s` at some position. */
  predicate Contains(s: string, sub: string) {
    exists i :: 0 <= i <= |s| - |sub| && OccursAt(s, sub, i)
  }

  /** How `slice` reads an index: negative counts from the end, and the result is clamped to
      `0..len`. */
  function SliceIndex(k: int, len: nat): (r: nat)
    ensures r <= len
  {
    if k < 0 then (if len + k < 0 then 0 else len + k)
    else if k > len then len
    else k
  }

  /** `s.slice(start, end)`: empty when the clamped start is not before the clamped end. */
  function Slice(s: string, start: int, end: int): (r: string)
    ensures |r| == if SliceIndex(start, |s|) < SliceIndex(end, |s|)
                   then SliceIndex(end, |s|) - SliceIndex(start, |s|) else 0
    ensures forall i :: 0 <= i < |r| ==> r[i] == s[SliceIndex(start, |s|) + i]
  {
    var from := SliceIndex(start, |s|);
    var to := SliceIndex(end, |s|);
    if from < to then s[from..to] else []
  }

  /** `shortenAddress`: the first six and last four characters around an ellipsis, or `''`
      for the empty (falsy) address. */
  function ShortenAddress(address: string): (r: string)
    ensures address == [] ==> r == []
    ensures address != [] ==>
      var head := Min(|address|, 6);
      var tail := Min(|address|, 4);
      && |r| == head + 3 + tail
      && r[..head] == address[..head]
      && r[head..head + 3] == "..."
      && r[head + 3..] == address[|address| - tail..]
  {
    if address == [] then []
    else Slice(address, 0, 6) + "..." + Slice(address, -4, |address|)
  }

  /** For an address of ten or more characters nothing is repeated: the address is the shown
      head, the elided middle and the shown tail. */
  lemma ShortenedLongAddressSplits(address: string)
    requires |address| >= 10
    ensures |ShortenAddress(address)| == 13
    ensures address == ShortenAddress(address)[..6] + address[6..|address| - 4] + ShortenAddress(address)[9..]
  {
    var r := ShortenAddress(address);
    assert address == address[..6] + address[6..|address| - 4] + address[|address| - 4..];
  }

  /** For an address of at most four characters both slices are the whole address. */
  lemma ShortenedTinyAddressRepeats(address: string)
    requires 0 < |address| <= 4
    ensures ShortenAddress(address) == address + "..." + address
  {
    var r := ShortenAddress(address);
    assert r[..|address|] == address;
    assert r[|address| + 3..] == address;
    assert r == r[..|address|] + r[|address|..|address| + 3] + r[|address| + 3..];
  }
}
