/** Star colour from colour temperature: the temperature is bucketed to a multiple of
    200 K between 1000 K and 29800 K, looked up in a table of 24-bit RGB values (one per
    bucket, from Mitchell Charity's blackbody table), split into channels, and each channel
    is exaggerated away from white and clamped at 0. */
module StarColor {
  import opened Js

  /** The colour table, nine temperatures to a row: the entry for 1000 + 200 k kelvin is in
      row k / 9 at position k % 9. */
  const BlackbodyRows: seq<seq<int>> := [
    [0xff3800, 0xff5300, 0xff6500, 0xff7300, 0xff7e00, 0xff8912, 0xff932c, 0xff9d3f, 0xffa54f],
    [0xffad5e, 0xffb46b, 0xffbb78, 0xffc184, 0xffc78f, 0xffcc99, 0xffd1a3, 0xffd5ad, 0xffd9b6],
    [0xffddbe, 0xffe1c6, 0xffe4ce, 0xffe8d5, 0xffebdc, 0xffeee3, 0xfff0e9, 0xfff3ef, 0xfff5f5],
    [0xfff8fb, 0xfef9ff, 0xf9f6ff, 0xf5f3ff, 0xf0f1ff, 0xedefff, 0xe9edff, 0xe6ebff, 0xe3e9ff],
    [0xe0e7ff, 0xdde6ff, 0xdae4ff, 0xd8e3ff, 0xd6e1ff, 0xd3e0ff, 0xd1dfff, 0xcfddff, 0xcedcff],
    [0xccdbff, 0xcadaff, 0xc9d9ff, 0xc7d8ff, 0xc6d8ff, 0xc4d7ff, 0xc3d6ff, 0xc2d5ff, 0xc1d4ff],
    [0xc0d4ff, 0xbfd3ff, 0xbed2ff, 0xbdd2ff, 0xbcd1ff, 0xbbd1ff, 0xbad0ff, 0xb9d0ff, 0xb8cfff],
    [0xb7cfff, 0xb7ceff, 0xb6ceff, 0xb5cdff, 0xb5cdff, 0xb4ccff, 0xb3ccff, 0xb3ccff, 0xb2cbff],
    [0xb2cbff, 0xb1caff, 0xb1caff, 0xb0caff, 0xafc9ff, 0xafc9ff, 0xafc9ff, 0xaec9ff, 0xaec8ff],
    [0xadc8ff, 0xadc8ff, 0xacc7ff, 0xacc7ff, 0xacc7ff, 0xabc7ff, 0xabc6ff, 0xaac6ff, 0xaac6ff],
    [0xaac6ff, 0xa9c6ff, 0xa9c5ff, 0xa9c5ff, 0xa9c5ff, 0xa8c5ff, 0xa8c5ff, 0xa8c4ff, 0xa7c4ff],
    [0xa7c4ff, 0xa7c4ff, 0xa7c4ff, 0xa6c3ff, 0xa6c3ff, 0xa6c3ff, 0xa6c3ff, 0xa5c3ff, 0xa5c3ff],
    [0xa5c3ff, 0xa5c2ff, 0xa4c2ff, 0xa4c2ff, 0xa4c2ff, 0xa4c2ff, 0xa4c2ff, 0xa3c2ff, 0xa3c1ff],
    [0xa3c1ff, 0xa3c1ff, 0xa3c1ff, 0xa3c1ff, 0xa2c1ff, 0xa2c1ff, 0xa2c1ff, 0xa2c1ff, 0xa2c0ff],
    [0xa2c0ff, 0xa1c0ff, 0xa1c0ff, 0xa1c0ff, 0xa1c0ff, 0xa1c0ff, 0xa1c0ff, 0xa1c0ff, 0xa0c0ff],
    [0xa0bfff, 0xa0bfff, 0xa0bfff, 0xa0bfff, 0xa0bfff, 0xa0bfff, 0xa0bfff, 0x9fbfff, 0x9fbfff],
    [0x9fbfff]
  ]

  /** The rows cover 145 temperatures: sixteen full rows and one entry for 29800 K. */
  lemma TableShape()
    ensures |BlackbodyRows| == 17 && |BlackbodyRows[16]| == 1
    ensures forall r :: 0 <= r < 16 ==> |BlackbodyRows[r]| == 9
    ensures forall r, c :: 0 <= r < |BlackbodyRows| && 0 <= c < |BlackbodyRows[r]| ==>
      0 <= BlackbodyRows[r][c] < 0x1000000
  {
  }

  /** The `blackbody` table as an object keyed by temperature; None for a key it lacks
      (`undefined`). */
  function BlackbodyLookup(kelvin: int): Option<int>
  {
    if 1000 <= kelvin <= 29800 && kelvin % 200 == 0 then
      var k := (kelvin - 1000) / 200;
      TableShape();
      Some(BlackbodyRows[k / 9][k % 9])
    else None
  }

  /** `Math.floor(temp / 200) * 200`, then clamped to [1000, 29800]. */
  function Bucket(temp: real): int
  {
    var t := (temp / 200.0).Floor * 200;
    if t < 1000 then 1000 else if t > 29800 then 29800 else t
  }

  /** `(mask & ans) >>> shift` for a 24-bit table value, with the 8-bit mask at `shift`. */
  function Channel(ans: int, shift: nat): int
    requires shift == 0 || shift == 8 || shift == 16
  {
    var scale := if shift == 16 then 0x10000 else if shift == 8 then 0x100 else 1;
    (ans / scale) % 0x100
  }

  /** `255 - 1.5 * (255 - v)`, clamped below at 0. */
  function Exaggerate(v: int): real
  {
    var x := 255.0 - 1.5 * (255 - v) as real;
    if x < 0.0 then 0.0 else x
  }

  datatype Rgb = Rgb(red: real, green: real, blue: real)

  /** `blackbodyColor`. A missing key would read as 0 in the bit operations. */
  function BlackbodyColor(temp: real): Rgb
  {
    var ans := match BlackbodyLookup(Bucket(temp)) case Some(v) => v case None => 0;
    Rgb(Exaggerate(Channel(ans, 16)), Exaggerate(Channel(ans, 8)), Exaggerate(Channel(ans, 0)))
  }

  /** The bucket is a multiple of 200 in [1000, 29800]: the 200 K step at or below the
      temperature inside the table range, and the nearer end outside it. */
  lemma {:induction false} BucketSpec(temp: real)
    ensures 1000 <= Bucket(temp) <= 29800 && Bucket(temp) % 200 == 0
    ensures 1000.0 <= temp < 29800.0 ==> Bucket(temp) as real <= temp < Bucket(temp) as real + 200.0
    ensures temp < 1000.0 ==> Bucket(temp) == 1000
    ensures temp >= 29800.0 ==> Bucket(temp) == 29800
  {
    var f := (temp / 200.0).Floor;
    assert f as real <= temp / 200.0 < f as real + 1.0;
    assert temp == 200.0 * (temp / 200.0);
    assert (f * 200) as real <= temp < (f * 200) as real + 200.0;
  }

  /** The bucket always names a key of the table, so the lookup never reads `undefined`. */
  lemma BucketIsInTable(temp: real)
    ensures BlackbodyLookup(Bucket(temp)).Some?
  {
    BucketSpec(temp);
  }

  /** Splitting a 24-bit value into channels loses nothing: red, green and blue put back
      together give the value. */
  lemma {:induction false} ChannelsRecompose(ans: int)
    requires 0 <= ans < 0x1000000
    ensures 0 <= Channel(ans, 16) < 0x100 && 0 <= Channel(ans, 8) < 0x100 && 0 <= Channel(ans, 0) < 0x100
    ensures Channel(ans, 16) * 0x10000 + Channel(ans, 8) * 0x100 + Channel(ans, 0) == ans
  {
    var r, g, b := Channel(ans, 16), Channel(ans, 8), Channel(ans, 0);
    assert ans / 0x10000 < 0x100;
    assert r == ans / 0x10000;
    assert ans == (ans / 0x100) * 0x100 + b;
    assert ans / 0x100 == r * 0x100 + g by {
      assert (ans / 0x100) / 0x100 == ans / 0x10000;
    }
  }

  /** Exaggeration keeps full intensity, never decreases a channel's order, lies in
      [0, 255] for a channel in [0, 255], and is 0 exactly for channels up to 85. */
  lemma ExaggerateSpec(v: int, w: int)
    ensures Exaggerate(255) == 255.0
    ensures 0 <= v <= 255 ==> 0.0 <= Exaggerate(v) <= 255.0
    ensures v <= w ==> Exaggerate(v) <= Exaggerate(w)
    ensures Exaggerate(v) == 0.0 <==> v <= 85
  {
  }

  /** Every colour has its three channels in [0, 255]. */
  lemma {:induction false} ColorInRange(temp: real)
    ensures var c := BlackbodyColor(temp);
      0.0 <= c.red <= 255.0 && 0.0 <= c.green <= 255.0 && 0.0 <= c.blue <= 255.0
  {
    BucketIsInTable(temp);
    var k := Bucket(temp);
    BucketSpec(temp);
    var ans := BlackbodyLookup(k).value;
    TableShape();
    ChannelsRecompose(ans);
    ExaggerateSpec(Channel(ans, 16), 0);
    ExaggerateSpec(Channel(ans, 8), 0);
    ExaggerateSpec(Channel(ans, 0), 0);
  }

  /** Temperatures in the same 200 K step share a colour, and everything below 1000 K or
      from 29800 K on takes the end colours. */
  lemma {:induction false} ColorIsConstantPerBucket(t1: real, t2: real)
    requires Bucket(t1) == Bucket(t2)
    ensures BlackbodyColor(t1) == BlackbodyColor(t2)
    ensures t1 < 1000.0 ==> BlackbodyColor(t1) == BlackbodyColor(1000.0)
    ensures t1 >= 29800.0 ==> BlackbodyColor(t1) == BlackbodyColor(29800.0)
  {
    BucketSpec(t1);
    BucketSpec(1000.0);
    BucketSpec(29800.0);
  }

  /** The Sun's 5778 K falls in the 5600 K bucket, 0xffeee3. */
  lemma SunColor()
    ensures BlackbodyColor(5778.0) == Rgb(255.0, 229.5, 213.0)
  {
    assert Bucket(5778.0) == 5600 by {
      assert (5778.0 / 200.0).Floor == 28;
    }
    assert BlackbodyLookup(5600) == Some(0xffeee3) by {
      assert BlackbodyRows[2][5] == 0xffeee3;
    }
  }
}
