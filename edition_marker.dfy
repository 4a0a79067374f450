/** The edition-marker query: which print editions of a master edition are
    already taken. A marker account covers 248 editions with the 31 bytes
    of its ledger, eight per byte, the first of each eight in the byte's
    most-significant bit. */
module EditionMarkers {
  import opened Base
  import opened Bits
  import opened Schema

  const EditionMarkerBitSize: nat := 248

  /** JavaScript's `%`: the remainder takes the sign of the dividend. */
  function JsRem(a: int, n: int): (r: int)
    requires n > 0
    ensures -n < r < n
    ensures a >= 0 ==> r == a % n
    ensures a <= 0 ==> r <= 0
  {
    if a >= 0 then a % n else -((-a) % n)
  }

  /** `editionTaken(edition)`. The byte index is `Math.floor` of the offset
      over 8, which Dafny's `/` computes for a positive divisor. A negative
      edition gives a negative index; reading the ledger there yields
      `undefined`, which `&` treats as 0. The error is the one the source
      throws when the index passes the ledger's end. */
  function EditionTaken(m: EditionMarker, edition: int): (r: Result<bool, string>)
    ensures r.Ok?
    ensures edition >= 0 ==>
      var offset := edition % EditionMarkerBitSize;
      r.value == Bit(m.ledger[offset / 8], 7 - offset % 8)
    ensures JsRem(edition, EditionMarkerBitSize) < 0 ==> r == Ok(false)
  {
    var offset := JsRem(edition, EditionMarkerBitSize);
    var index := offset / 8;
    if index > 30 then Err("bad index for edition")
    else
      var position: nat := 7 - JsRem(offset, 8);
      var mask := Pow2(position);
      var cell := if index >= 0 then m.ledger[index] else 0;
      AndPow2(cell, position);
      NoBitOfZero(position);
      Ok(BitAnd(cell, mask) != 0)
  }

  /** The program's side of the bitset: printing edition `edition` sets its
      bit, and no other. */
  function MarkEdition(m: EditionMarker, edition: nat): (r: EditionMarker)
    ensures var offset := edition % EditionMarkerBitSize;
      forall i :: 0 <= i < 31 && i != offset / 8 ==> r.ledger[i] == m.ledger[i]
  {
    var offset := edition % EditionMarkerBitSize;
    var position := 7 - offset % 8;
    Pow2Strict(position, 8);
    assert Pow2(8) == 256;
    OrBound(m.ledger[offset / 8], Pow2(position), 8);
    EditionMarker(m.ledger[offset / 8 := BitOr(m.ledger[offset / 8], Pow2(position))])
  }

  /** Two offsets in 0..247 select the same byte and the same bit exactly
      when they are equal. */
  lemma SameSlot(a: nat, b: nat)
    requires a < 248 && b < 248
    ensures (a / 8 == b / 8 && 7 - a % 8 == 7 - b % 8) <==> a == b
  {
    if a / 8 == b / 8 && a % 8 == b % 8 {
      assert a == 8 * (a / 8) + a % 8;
      assert b == 8 * (b / 8) + b % 8;
    }
  }

  /** After edition n is marked, edition k is taken exactly when it was
      taken before or it shares n's slot (the same residue modulo 248). */
  lemma MarkThenTaken(m: EditionMarker, n: nat, k: nat)
    ensures EditionTaken(MarkEdition(m, n), k).value
        <==> k % EditionMarkerBitSize == n % EditionMarkerBitSize || EditionTaken(m, k).value
  {
    var a, b := n % EditionMarkerBitSize, k % EditionMarkerBitSize;
    var p, q := 7 - a % 8, 7 - b % 8;
    SameSlot(a, b);
    if b / 8 == a / 8 {
      var cell := m.ledger[a / 8];
      assert MarkEdition(m, n).ledger[b / 8] == BitOr(cell, Pow2(p));
      OrBits(cell, Pow2(p), q);
      BitOfPow2(p, q);
    }
  }

  /** On a fresh ledger, marking one edition n in 0..247 makes exactly the
      editions congruent to n modulo 248 taken. */
  lemma MarkFreshLedger(n: nat, k: nat)
    requires n < EditionMarkerBitSize
    ensures EditionTaken(MarkEdition(EditionMarker(seq(31, _ => 0)), n), k).value
        <==> k % EditionMarkerBitSize == n
  {
    var blank := EditionMarker(seq(31, _ => 0));
    MarkThenTaken(blank, n, k);
    var offset := k % EditionMarkerBitSize;
    assert blank.ledger[offset / 8] == 0;
    NoBitOfZero(7 - offset % 8);
    assert !EditionTaken(blank, k).value;
  }

  /** The answer depends on the edition only through its residue: editions
      248 apart share a slot. */
  lemma {:induction false} TakenPeriodic(m: EditionMarker, n: int, j: nat)
    requires n >= 0
    ensures EditionTaken(m, n + EditionMarkerBitSize * j) == EditionTaken(m, n)
  {
    assert (n + EditionMarkerBitSize * j) % EditionMarkerBitSize == n % EditionMarkerBitSize;
  }

  /** An edition below zero whose remainder is -0 (a multiple of 248)
      reads the slot of edition 0: JavaScript's `-0` indexes like `0`. */
  lemma NegativeMultipleIsZero(m: EditionMarker, j: nat)
    ensures EditionTaken(m, -(EditionMarkerBitSize * j)) == EditionTaken(m, 0)
  {
    assert (EditionMarkerBitSize * j) % EditionMarkerBitSize == 0;
  }
}
