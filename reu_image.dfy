/**
 The REU image builder: the program image is placed at offset 0 of a 2 MiB
 container, the device-tree blob in the last 16 KiB, and everything else is
 zero. The script emits `P`, a zero pad, `D` and a second zero pad, in that
 order; each pad is Python's `b"\x00" * n`, which is empty when `n` is
 negative, so an oversized input is not an error: it only loses its pad.
 */
module ReuImage {

  /** Size of the whole REU container. */
  const REUSIZE: nat := 2 * 1024 * 1024
  /** Size of the region reserved for the device-tree blob at the end. */
  const DTB_SIZE: nat := 16384
  /** Offset at which the device-tree blob lands when the program image fits. */
  const DTB_OFFSET: nat := REUSIZE - DTB_SIZE

  function Max(a: int, b: int): int { if a < b then b else a }

  /**
   Python's `b"\x00" * n`: the one-byte string repeated `n` times, which is
   empty when `n` is zero or negative.
   */
  function ZeroFill(n: int): (z: seq<bv8>)
    ensures |z| == Max(0, n)
    ensures forall i :: 0 <= i < |z| ==> z[i] == 0
  {
    if n <= 0 then [] else [0] + ZeroFill(n - 1)
  }

  /** The bytes the script writes, in order: image, pad, blob, pad. */
  function Layout(prog: seq<bv8>, dtb: seq<bv8>): (out: seq<bv8>)
    ensures |out| == Max(DTB_OFFSET, |prog|) + Max(DTB_SIZE, |dtb|)
    ensures out[..|prog|] == prog
  {
    prog + ZeroFill(REUSIZE - |prog| - DTB_SIZE) + dtb + ZeroFill(DTB_SIZE - |dtb|)
  }

  /** The device-tree blob followed by its pad: the last section of the image. */
  function Tail(dtb: seq<bv8>): (t: seq<bv8>)
    ensures |t| == Max(DTB_SIZE, |dtb|)
    ensures t[..|dtb|] == dtb
  {
    dtb + ZeroFill(DTB_SIZE - |dtb|)
  }

  /** Inputs that fit their regions. */
  predicate Fits(prog: seq<bv8>, dtb: seq<bv8>)
  {
    |prog| <= DTB_OFFSET && |dtb| <= DTB_SIZE
  }

  /**
   Reference description of the container byte by byte, for inputs that fit:
   the image, then the blob at DTB_OFFSET, and zero everywhere else.
   */
  function ExpectedByte(prog: seq<bv8>, dtb: seq<bv8>, i: nat): bv8
    requires Fits(prog, dtb)
  {
    if i < |prog| then prog[i]
    else if DTB_OFFSET <= i < DTB_OFFSET + |dtb| then dtb[i - DTB_OFFSET]
    else 0
  }

  /** The image is the program part followed by the tail section. */
  lemma LayoutSplit(prog: seq<bv8>, dtb: seq<bv8>)
    ensures Layout(prog, dtb) == prog + ZeroFill(DTB_OFFSET - |prog|) + Tail(dtb)
    ensures |prog + ZeroFill(DTB_OFFSET - |prog|)| == Max(DTB_OFFSET, |prog|)
  {
    assert REUSIZE - |prog| - DTB_SIZE == DTB_OFFSET - |prog|;
    var a, b := prog, ZeroFill(DTB_OFFSET - |prog|);
    assert a + b + dtb + ZeroFill(DTB_SIZE - |dtb|) == (a + b) + Tail(dtb);
  }

  /** Output length for all inputs: the larger of each slot and its content. */
  lemma LayoutLength(prog: seq<bv8>, dtb: seq<bv8>)
    ensures |Layout(prog, dtb)| == Max(DTB_OFFSET, |prog|) + Max(DTB_SIZE, |dtb|)
    ensures Fits(prog, dtb) ==> |Layout(prog, dtb)| == REUSIZE
  {
    LayoutSplit(prog, dtb);
  }

  /** The output starts with the program image byte for byte. */
  lemma LayoutStartsWithProgram(prog: seq<bv8>, dtb: seq<bv8>)
    ensures |prog| <= |Layout(prog, dtb)|
    ensures Layout(prog, dtb)[..|prog|] == prog
  {
    LayoutSplit(prog, dtb);
    var head := prog + ZeroFill(DTB_OFFSET - |prog|);
    assert Layout(prog, dtb) == head + Tail(dtb);
    assert head[..|prog|] == prog;
    assert (head + Tail(dtb))[..|prog|] == head[..|prog|];
  }

  /** The tail section always occupies the last max(DTB_SIZE, |dtb|) bytes. */
  lemma LayoutEndsWithTail(prog: seq<bv8>, dtb: seq<bv8>)
    ensures |Tail(dtb)| == Max(DTB_SIZE, |dtb|) <= |Layout(prog, dtb)|
    ensures Layout(prog, dtb)[|Layout(prog, dtb)| - |Tail(dtb)|..] == Tail(dtb)
  {
    LayoutSplit(prog, dtb);
    var head := prog + ZeroFill(DTB_OFFSET - |prog|);
    assert Layout(prog, dtb) == head + Tail(dtb);
    assert (head + Tail(dtb))[|head|..] == Tail(dtb);
  }

  /** When the image fits, the blob starts at DTB_OFFSET (2,080,768). */
  lemma LayoutPlacesDtb(prog: seq<bv8>, dtb: seq<bv8>)
    requires |prog| <= DTB_OFFSET
    ensures DTB_OFFSET + |dtb| <= |Layout(prog, dtb)|
    ensures Layout(prog, dtb)[DTB_OFFSET..DTB_OFFSET + |dtb|] == dtb
  {
    LayoutSplit(prog, dtb);
    var head := prog + ZeroFill(DTB_OFFSET - |prog|);
    assert |head| == DTB_OFFSET;
    assert Layout(prog, dtb) == head + Tail(dtb);
    assert (head + Tail(dtb))[DTB_OFFSET..DTB_OFFSET + |dtb|] == Tail(dtb)[..|dtb|];
  }

  /** Every byte outside the image and the blob is zero, for all inputs. */
  lemma LayoutZeroElsewhere(prog: seq<bv8>, dtb: seq<bv8>, i: nat)
    requires i < |Layout(prog, dtb)|
    requires |prog| <= i
    requires !(Max(DTB_OFFSET, |prog|) <= i < Max(DTB_OFFSET, |prog|) + |dtb|)
    ensures Layout(prog, dtb)[i] == 0
  {
    LayoutSplit(prog, dtb);
    var head := prog + ZeroFill(DTB_OFFSET - |prog|);
    assert Layout(prog, dtb) == head + Tail(dtb);
    if i < |head| {
      assert Layout(prog, dtb)[i] == ZeroFill(DTB_OFFSET - |prog|)[i - |prog|];
    } else {
      var t := Tail(dtb);
      assert Layout(prog, dtb)[i] == t[i - |head|];
      assert t[i - |head|] == ZeroFill(DTB_SIZE - |dtb|)[i - |head| - |dtb|];
    }
  }

  /** For inputs that fit, the output agrees with the byte-wise reference description. */
  lemma LayoutMatchesReference(prog: seq<bv8>, dtb: seq<bv8>)
    requires Fits(prog, dtb)
    ensures |Layout(prog, dtb)| == REUSIZE
    ensures forall i :: 0 <= i < REUSIZE ==> Layout(prog, dtb)[i] == ExpectedByte(prog, dtb, i)
  {
    LayoutLength(prog, dtb);
    LayoutStartsWithProgram(prog, dtb);
    LayoutPlacesDtb(prog, dtb);
    forall i | 0 <= i < REUSIZE
      ensures Layout(prog, dtb)[i] == ExpectedByte(prog, dtb, i)
    {
      if i < |prog| {
        assert Layout(prog, dtb)[..|prog|][i] == prog[i];
      } else if DTB_OFFSET <= i < DTB_OFFSET + |dtb| {
        assert Layout(prog, dtb)[DTB_OFFSET..DTB_OFFSET + |dtb|][i - DTB_OFFSET] == dtb[i - DTB_OFFSET];
      } else {
        LayoutZeroElsewhere(prog, dtb, i);
      }
    }
  }

  /** For every input, including oversized ones, each pad is clamped at zero length. */
  lemma LayoutClampsPads(prog: seq<bv8>, dtb: seq<bv8>)
    ensures Layout(prog, dtb)
         == prog + seq(Max(0, DTB_OFFSET - |prog|), _ => 0 as bv8)
            + dtb + seq(Max(0, DTB_SIZE - |dtb|), _ => 0 as bv8)
  {
    assert REUSIZE - |prog| - DTB_SIZE == DTB_OFFSET - |prog|;
    assert ZeroFill(DTB_OFFSET - |prog|) == seq(Max(0, DTB_OFFSET - |prog|), _ => 0 as bv8);
    assert ZeroFill(DTB_SIZE - |dtb|) == seq(Max(0, DTB_SIZE - |dtb|), _ => 0 as bv8);
  }

  /** An image larger than its slot pushes the blob past DTB_OFFSET and grows the file. */
  lemma OversizedProgramShiftsDtb(prog: seq<bv8>, dtb: seq<bv8>)
    requires |prog| > DTB_OFFSET
    ensures |Layout(prog, dtb)| > REUSIZE - DTB_SIZE + Max(DTB_SIZE, |dtb|)
    ensures Layout(prog, dtb) == prog + Tail(dtb)
  {
    LayoutSplit(prog, dtb);
    assert ZeroFill(DTB_OFFSET - |prog|) == [];
    assert prog + [] == prog;
  }

  /** Two empty inputs give 2,097,152 zero bytes. */
  lemma EmptyInputsGiveZeroImage()
    ensures |Layout([], [])| == REUSIZE
    ensures forall i :: 0 <= i < REUSIZE ==> Layout([], [])[i] == 0
  {
    LayoutMatchesReference([], []);
    assert forall i :: 0 <= i < REUSIZE ==> ExpectedByte([], [], i) == 0;
  }

  /** Maximal inputs fill the container with no padding. */
  lemma MaximalInputsHaveNoPadding(prog: seq<bv8>, dtb: seq<bv8>)
    requires |prog| == DTB_OFFSET && |dtb| == DTB_SIZE
    ensures Layout(prog, dtb) == prog + dtb
  {
    assert ZeroFill(DTB_OFFSET - |prog|) == [];
    assert ZeroFill(DTB_SIZE - |dtb|) == [];
    LayoutSplit(prog, dtb);
    assert Tail(dtb) == dtb + [];
  }

  /** A three-byte image and a two-byte blob. */
  lemma SmallInputsExample()
    ensures var out := Layout([0x01, 0x02, 0x03], [0xAA, 0xBB]);
      && |out| == REUSIZE
      && out[0..3] == [0x01, 0x02, 0x03]
      && (forall i :: 3 <= i < 2080768 ==> out[i] == 0)
      && out[2080768..2080770] == [0xAA, 0xBB]
      && (forall i :: 2080770 <= i < 2097152 ==> out[i] == 0)
  {
    var prog: seq<bv8>, dtb: seq<bv8> := [0x01, 0x02, 0x03], [0xAA, 0xBB];
    LayoutMatchesReference(prog, dtb);
    LayoutStartsWithProgram(prog, dtb);
    LayoutPlacesDtb(prog, dtb);
    var out := Layout(prog, dtb);
    forall i | 3 <= i < 2080768 ensures out[i] == 0 {
      assert out[i] == ExpectedByte(prog, dtb, i);
    }
    forall i | 2080770 <= i < 2097152 ensures out[i] == 0 {
      assert out[i] == ExpectedByte(prog, dtb, i);
    }
  }
}
