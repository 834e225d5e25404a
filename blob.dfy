/**
 * base64ToBlob: the string that atob decoded is cut into 512-character
 * slices, each slice's char codes are copied into an array and turned into a
 * Uint8Array, and the Blob is made of those arrays in order.
 */
module Blob {
  import opened Wrappers

  const SliceSize := 512

  /** ToUint8, the conversion a Uint8Array applies to each of its elements (modulo 2^8). */
  function ToUint8(code: int): byte
  {
    code % 256
  }

  /** `new Uint8Array(numbers)` */
  function Uint8ArrayOf(numbers: seq<int>): seq<byte>
  {
    seq(|numbers|, i requires 0 <= i < |numbers| => ToUint8(numbers[i]))
  }

  /** The bytes a Blob of the string's char codes holds. */
  function CharBytes(s: string): seq<byte>
  {
    seq(|s|, i requires 0 <= i < |s| => ToUint8(s[i] as int))
  }

  /** The content of a Blob made of the given parts: their concatenation. */
  function Concat(parts: seq<seq<byte>>): seq<byte>
    decreases |parts|
  {
    if |parts| == 0 then [] else Concat(parts[..|parts| - 1]) + parts[|parts| - 1]
  }

  lemma ConcatSnoc(parts: seq<seq<byte>>, last: seq<byte>)
    ensures Concat(parts + [last]) == Concat(parts) + last
  {
    assert (parts + [last])[..|parts|] == parts;
  }

  lemma CharBytesSplit(s: string, a: nat, b: nat)
    requires a <= b <= |s|
    ensures CharBytes(s[..b]) == CharBytes(s[..a]) + CharBytes(s[a..b])
  {
  }

  /** k slices of 512 cover n characters, and k - 1 do not: k is ceil(n / 512). */
  lemma SliceCount(n: nat, k: nat)
    requires n <= SliceSize * k && (k > 0 ==> SliceSize * (k - 1) < n)
    ensures k == (n + SliceSize - 1) / SliceSize
  {
  }

  /** atob yields only characters below 256, and for those the Blob holds exactly the char codes. */
  lemma CharBytesAreCodes(s: string)
    requires forall i :: 0 <= i < |s| ==> s[i] as int < 256
    ensures forall i :: 0 <= i < |s| ==> CharBytes(s)[i] == s[i] as int
  {
  }

  /**
   * The chunking loops of base64ToBlob over atob's output: the arrays
   * concatenate to the string's bytes, every array but the last is full, and
   * there are ceil(n / 512) of them.
   */
  method Base64ToBlob(byteCharacters: string) returns (byteArrays: seq<seq<byte>>)
    ensures Concat(byteArrays) == CharBytes(byteCharacters)
    ensures |byteArrays| == (|byteCharacters| + SliceSize - 1) / SliceSize
    ensures forall k :: 0 <= k < |byteArrays| - 1 ==> |byteArrays[k]| == SliceSize
    ensures forall k :: 0 <= k < |byteArrays| ==> 0 < |byteArrays[k]| <= SliceSize
  {
    var n := |byteCharacters|;
    byteArrays := [];
    var offset := 0;
    while offset < n
      invariant offset == SliceSize * |byteArrays|
      invariant |byteArrays| > 0 ==> offset - SliceSize < n
      invariant Concat(byteArrays) == CharBytes(byteCharacters[..if offset < n then offset else n])
      invariant forall k :: 0 <= k < |byteArrays| - 1 ==> |byteArrays[k]| == SliceSize
      invariant offset < n ==> forall k :: 0 <= k < |byteArrays| ==> |byteArrays[k]| == SliceSize
      invariant forall k :: 0 <= k < |byteArrays| ==> 0 < |byteArrays[k]| <= SliceSize
    {
      var end := if offset + SliceSize < n then offset + SliceSize else n;
      var slice := byteCharacters[offset..end];
      var byteNumbers := new int[|slice|];
      for i := 0 to |slice|
        invariant forall j :: 0 <= j < i ==> byteNumbers[j] == slice[j] as int
      {
        byteNumbers[i] := slice[i] as int;
      }
      var byteArray := Uint8ArrayOf(byteNumbers[..]);
      assert byteArray == CharBytes(slice);
      ConcatSnoc(byteArrays, byteArray);
      CharBytesSplit(byteCharacters, offset, end);
      byteArrays := byteArrays + [byteArray];
      offset := offset + SliceSize;
    }
    assert byteCharacters[..n] == byteCharacters;
    SliceCount(n, |byteArrays|);
  }
}
