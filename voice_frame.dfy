/** The frame handed from the capture loop to the save loop: the raw PCM
    bytes of one read and the speech flag latched when it was read. Equality
    and hashing are structural over both fields, as the data class overrides
    them (its `ByteArray` field would otherwise compare by reference). */
module Frames {
  import opened Jvm

  datatype VoiceFrame = VoiceFrame(bytes: seq<Byte>, hasVoice: bool)

  /** What `equals(other: Any?)` can be handed: null, another frame, or an
      object of some other class. */
  datatype Any = Null | Frame(frame: VoiceFrame) | OtherClass(className: string)

  /** `ByteArray.contentEquals`: same length and the same byte at every index. */
  predicate ContentEquals(a: seq<Byte>, b: seq<Byte>) {
    |a| == |b| && forall i :: 0 <= i < |a| ==> a[i] == b[i]
  }

  /** `VoiceFrame.equals`. `sameRef` stands for `this === other`; a reference
      identical to `self` is necessarily the frame `self` itself. */
  function Equals(self: VoiceFrame, other: Any, sameRef: bool): bool
    requires sameRef ==> other == Frame(self)
  {
    if sameRef then true
    else match other
      case Null => false
      case OtherClass(_) => false
      case Frame(o) => ContentEquals(self.bytes, o.bytes) && self.hasVoice == o.hasVoice
  }

  /** `Boolean.hashCode()` on the JVM. */
  function BoolHash(b: bool): int {
    if b then 1231 else 1237
  }

  /** `ByteArray.contentHashCode()` (java.util.Arrays.hashCode): start from 1
      and fold `31 * h + element` over the signed elements, in `Int` arithmetic. */
  function ContentHash(s: seq<Byte>): (h: int)
    ensures IsInt(h)
    ensures s == [] ==> h == 1
  {
    if s == [] then 1
    else Wrap32(31 * ContentHash(s[..|s| - 1]) + SignedByte(s[|s| - 1]))
  }

  /** `VoiceFrame.hashCode`: `31 * contentHash(bytes) + hasVoice.hashCode()`. */
  function HashCode(f: VoiceFrame): (h: int)
    ensures IsInt(h)
    ensures (h - (31 * ContentHash(f.bytes) + BoolHash(f.hasVoice))) % TwoTo32 == 0
  {
    Wrap32(31 * ContentHash(f.bytes) + BoolHash(f.hasVoice))
  }

  /** Byte-wise content equality is exactly sequence equality. */
  lemma ContentEqualsIsEquality(a: seq<Byte>, b: seq<Byte>)
    ensures ContentEquals(a, b) <==> a == b
  {
    if ContentEquals(a, b) {
      assert a == b;
    }
  }

  /** A frame is equal to itself, whether or not the reference is shared. */
  lemma EqualsReflexive(f: VoiceFrame, sameRef: bool)
    ensures Equals(f, Frame(f), sameRef)
  {
    ContentEqualsIsEquality(f.bytes, f.bytes);
  }

  /** Null and objects of another class are never equal to a frame. */
  lemma NotEqualToNullOrOtherClass(f: VoiceFrame, name: string)
    ensures !Equals(f, Null, false)
    ensures !Equals(f, OtherClass(name), false)
  {
  }

  /** Two frames are equal exactly when their byte contents and flags agree,
      that is, exactly when they are the same value. */
  lemma EqualsIffSameValue(f: VoiceFrame, g: VoiceFrame, sameRef: bool)
    requires sameRef ==> g == f
    ensures Equals(f, Frame(g), sameRef) <==> f == g
    ensures Equals(f, Frame(g), sameRef) <==> (f.bytes == g.bytes && f.hasVoice == g.hasVoice)
  {
    ContentEqualsIsEquality(f.bytes, g.bytes);
  }

  /** Frames that `equals` says are equal have the same `hashCode`. */
  lemma EqualFramesHashEqual(f: VoiceFrame, g: VoiceFrame, sameRef: bool)
    requires sameRef ==> g == f
    requires Equals(f, Frame(g), sameRef)
    ensures HashCode(f) == HashCode(g)
  {
    EqualsIffSameValue(f, g, sameRef);
  }

  /** The flag contributes to the hash: frames with the same bytes and opposite
      flags hash six apart (1237 - 1231), modulo 2^32. */
  lemma FlagChangesHash(bytes: seq<Byte>)
    ensures HashCode(VoiceFrame(bytes, false)) != HashCode(VoiceFrame(bytes, true))
  {
    var c := 31 * ContentHash(bytes);
    var hf := HashCode(VoiceFrame(bytes, false));
    var ht := HashCode(VoiceFrame(bytes, true));
    ModDiff(hf - (c + 1237), ht - (c + 1231));
    assert (hf - ht - 6) % TwoTo32 == 0;
  }

  lemma ModDiff(a: int, b: int)
    requires a % TwoTo32 == 0 && b % TwoTo32 == 0
    ensures (a - b) % TwoTo32 == 0
  {
    var qa, qb := a / TwoTo32, b / TwoTo32;
    assert a == qa * TwoTo32;
    assert b == qb * TwoTo32;
    assert a - b == (qa - qb) * TwoTo32;
  }
}
