/**
 * The serial test server (server/main.py): every second it draws a random
 * picture of 300 pixels and writes it to the LED controller's serial port
 * as one frame of 3 bytes per pixel, in pixel order and (red, green, blue)
 * order within a pixel.
 *
 * `random.randint(0, 255)` is a parameter: the sequence of values it
 * returns. The port, the logging and the one-second sleep are left out;
 * what `port.write` is given is the result of `WritePic`.
 */
module SerialFrames {
  import opened Common

  /** The 300 pixels of one test picture (server/main.py:31). */
  const PicturePixels: nat := 300

  /** One pixel: the three values given to `struct.pack('BBB', ...)`. */
  datatype Pixel = Pixel(red: int, green: int, blue: int)

  /** `struct.pack('B', x)` accepts exactly the values of one unsigned byte. */
  predicate IsByte(x: int) { 0 <= x < 256 }

  predicate PackablePixel(px: Pixel) { IsByte(px.red) && IsByte(px.green) && IsByte(px.blue) }

  predicate Packable(pic: seq<Pixel>)
  {
    forall i :: 0 <= i < |pic| ==> PackablePixel(pic[i])
  }

  /** The three bytes `struct.pack('BBB', *px)` produces. */
  function PackPixel(px: Pixel): (b: seq<Byte>)
    requires PackablePixel(px)
    ensures |b| == 3
  {
    [px.red, px.green, px.blue]
  }

  /**
   * The bytes `write_pic` sends for `pic`, or `None` when `struct.pack`
   * raises on a component outside 0..255 before anything is written.
   */
  function Packed(pic: seq<Pixel>): (data: Option<seq<Byte>>)
    ensures data.Some? <==> Packable(pic)
    ensures data.Some? ==> |data.value| == 3 * |pic|
    decreases |pic|
  {
    if pic == [] then Some([])
    else if !PackablePixel(pic[0]) then None
    else match Packed(pic[1..])
      case None => None
      case Some(rest) => Some(PackPixel(pic[0]) + rest)
  }

  /** The pixels a frame of 3 bytes per pixel holds: pixel `i` is bytes `3 * i`, `3 * i + 1`, `3 * i + 2`. */
  function Unpack(data: seq<Byte>): (pic: seq<Pixel>)
    requires |data| % 3 == 0
    ensures |pic| == |data| / 3
    ensures forall i :: 0 <= i < |pic| ==> pic[i] == Pixel(data[3 * i], data[3 * i + 1], data[3 * i + 2])
    decreases |data|
  {
    if data == [] then [] else [Pixel(data[0], data[1], data[2])] + Unpack(data[3..])
  }

  /** Byte `3 * i + c` of a packed picture is component `c` of pixel `i`. */
  lemma {:induction false} PackedAt(pic: seq<Pixel>, i: nat)
    requires Packable(pic) && i < |pic|
    ensures Packed(pic).value[3 * i .. 3 * i + 3] == PackPixel(pic[i])
    decreases |pic|
  {
    var rest := Packed(pic[1..]).value;
    assert Packed(pic).value == PackPixel(pic[0]) + rest;
    if i > 0 {
      PackedAt(pic[1..], i - 1);
      assert Packed(pic).value[3 * i .. 3 * i + 3] == rest[3 * (i - 1) .. 3 * (i - 1) + 3];
    }
  }

  /** The controller recovers every pixel of a written picture. */
  lemma {:induction false} UnpackPacked(pic: seq<Pixel>)
    requires Packable(pic)
    ensures Unpack(Packed(pic).value) == pic
    decreases |pic|
  {
    if pic != [] {
      var rest := Packed(pic[1..]).value;
      var data := PackPixel(pic[0]) + rest;
      assert Packed(pic).value == data;
      assert data[3..] == rest;
      UnpackPacked(pic[1..]);
    }
  }

  /** A component outside 0..255 anywhere in the picture means nothing is written. */
  lemma RejectsOutOfRange(pic: seq<Pixel>, i: nat)
    requires i < |pic| && !PackablePixel(pic[i])
    ensures Packed(pic) == None
  {
  }

  /**
   * `write_pic` (server/main.py:18-24): the frame is built pixel by pixel
   * and then written in one call; `None` stands for the `struct.error`
   * that stops it before the write.
   */
  method WritePic(pic: seq<Pixel>) returns (written: Option<seq<Byte>>)
    ensures written == Packed(pic)
  {
    var data: seq<Byte> := [];
    var i := 0;
    while i < |pic|
      invariant 0 <= i <= |pic|
      invariant Packable(pic[..i])
      invariant Packed(pic[..i]) == Some(data)
    {
      var px := pic[i];
      if !PackablePixel(px) {
        RejectsOutOfRange(pic, i);
        return None;
      }
      PackedSnoc(pic[..i], px);
      assert pic[..i + 1] == pic[..i] + [px];
      data := data + PackPixel(px);
      i := i + 1;
    }
    assert pic[..i] == pic;
    written := Some(data);
  }

  /** Packing one more pixel appends its three bytes. */
  lemma {:induction false} PackedSnoc(pic: seq<Pixel>, px: Pixel)
    requires Packable(pic) && PackablePixel(px)
    ensures Packed(pic + [px]) == Some(Packed(pic).value + PackPixel(px))
    decreases |pic|
  {
    if pic == [] {
      assert pic + [px] == [px];
      assert [px][1..] == [];
      assert Packed([px]) == Some(PackPixel(px) + []);
      assert Packed(pic).value == [];
      assert PackPixel(px) + [] == [] + PackPixel(px);
    } else {
      var whole := pic + [px];
      assert whole[0] == pic[0];
      assert whole[1..] == pic[1..] + [px];
      PackedSnoc(pic[1..], px);
      var tail := Packed(pic[1..]).value;
      assert Packed(pic).value == PackPixel(pic[0]) + tail;
      assert Packed(whole) == Some(PackPixel(pic[0]) + (tail + PackPixel(px)));
      assert PackPixel(pic[0]) + (tail + PackPixel(px)) == (PackPixel(pic[0]) + tail) + PackPixel(px);
    }
  }

  /** The picture `main` builds from successive `random.randint(0, 255)` draws (server/main.py:30-32). */
  function RandomPicture(draws: seq<int>): (pic: seq<Pixel>)
    requires |draws| == 3 * PicturePixels
    ensures |pic| == PicturePixels
  {
    seq(PicturePixels, i requires 0 <= i < PicturePixels => Pixel(draws[3 * i], draws[3 * i + 1], draws[3 * i + 2]))
  }

  /** Each test frame is 900 bytes: the random draws themselves, in the order they were drawn. */
  lemma RandomFrameIsDraws(draws: seq<int>)
    requires |draws| == 3 * PicturePixels
    requires forall i :: 0 <= i < |draws| ==> IsByte(draws[i])
    ensures Packed(RandomPicture(draws)).Some?
    ensures Packed(RandomPicture(draws)).value == draws
  {
    var pic := RandomPicture(draws);
    assert Packable(pic) by {
      forall i | 0 <= i < |pic|
        ensures PackablePixel(pic[i])
      {
        assert pic[i] == Pixel(draws[3 * i], draws[3 * i + 1], draws[3 * i + 2]);
      }
    }
    var data := Packed(pic).value;
    forall k | 0 <= k < |draws|
      ensures data[k] == draws[k]
    {
      var i := k / 3;
      PackedAt(pic, i);
      assert data[k] == data[3 * i .. 3 * i + 3][k - 3 * i];
    }
  }
}
