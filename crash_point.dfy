/** The piecewise crash-point generator that both the aviator page
    (`generateRealisticCrashPoint`) and the server (`generateCrashPoint`)
    use: a first draw picks one of four bands, a second draw places the
    value inside the band. The two `Math.random()` draws are parameters. */
module CrashPoint {

  /** Which band the first draw selects: 0 below 0.40, 1 below 0.75, 2 below 0.95, else 3. */
  function Band(pick: real): (b: nat)
    ensures b <= 3
    ensures 0.0 <= pick < 1.0 ==> Cut(b) <= pick < Cut(b + 1)
  {
    if pick < 0.40 then 0 else if pick < 0.75 then 1 else if pick < 0.95 then 2 else 3
  }

  /** The first-draw thresholds: band `b` takes draws in [Cut(b), Cut(b + 1)),
      so the bands are chosen 40%, 35%, 20% and 5% of the time. */
  function Cut(b: nat): real
    requires b <= 4
  {
    [0.0, 0.40, 0.75, 0.95, 1.0][b]
  }

  /** Lower edge of a band. */
  function Low(b: nat): real
    requires b <= 3
  {
    [1.0, 2.2, 4.0, 4.8][b]
  }

  /** Upper edge of a band, exclusive. */
  function High(b: nat): real
    requires b <= 3
  {
    [2.2, 4.0, 4.8, 5.0][b]
  }

  /** `base + Math.random() * width` for the band the first draw selects. */
  function Generate(pick: real, offset: real): (c: real)
    requires 0.0 <= offset < 1.0
    ensures Low(Band(pick)) <= c < High(Band(pick))
    ensures 1.0 <= c < 5.0
  {
    if pick < 0.40 then 1.00 + offset * 1.2
    else if pick < 0.75 then 2.2 + offset * 1.8
    else if pick < 0.95 then 4.0 + offset * 0.8
    else 4.8 + offset * 0.2
  }

  /** The four bands tile [1.0, 5.0) without gap or overlap, so every value
      in that range is produced by exactly one band and by some offset. */
  lemma BandsTile(c: real)
    requires 1.0 <= c < 5.0
    ensures exists b: nat :: b <= 3 && Low(b) <= c < High(b)
    ensures forall b: nat, b': nat :: b <= 3 && b' <= 3 && Low(b) <= c < High(b) && Low(b') <= c < High(b') ==> b == b'
  {
    if c < 2.2 { assert Low(0) <= c < High(0); }
    else if c < 4.0 { assert Low(1) <= c < High(1); }
    else if c < 4.8 { assert Low(2) <= c < High(2); }
    else { assert Low(3) <= c < High(3); }
  }

  /** Every value of the selected band is produced by some second draw. */
  lemma GenerateOnto(pick: real, c: real)
    requires Low(Band(pick)) <= c < High(Band(pick))
    ensures exists offset: real :: 0.0 <= offset < 1.0 && Generate(pick, offset) == c
  {
    var b := Band(pick);
    var width := High(b) - Low(b);
    var offset := (c - Low(b)) / width;
    assert 0.0 <= offset < 1.0;
    assert Generate(pick, offset) == c;
  }
}
