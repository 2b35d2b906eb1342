// The MNIST dataset (src/mnist_dataset.cc): IDX image and label files held
// in memory, read out as mean-field intensities, Bernoulli samples or labels.
//
// A file is the sequence of its bytes. Header words are read into an int32
// on a little-endian host and then byte-swapped, which amounts to reading
// them big-endian; the swapped word is reinterpreted as a signed int32.

module Mnist {

  type byte = b: int | 0 <= b < 0x100

  const Two31: int := 0x8000_0000
  const Two32: int := 0x1_0000_0000

  /** Header length of an images file: magic, count, rows, cols. */
  const ImagesHeaderBytes: nat := 16
  /** Header length of a labels file: magic, count. */
  const LabelsHeaderBytes: nat := 8

  // ---------------------------------------------------------------------------
  // 32-bit words
  // ---------------------------------------------------------------------------

  /** The unsigned value four consecutive file bytes have when read into an int32 on a little-endian host. */
  function HostWord(b0: byte, b1: byte, b2: byte, b3: byte): (w: nat)
    ensures w < Two32
  {
    b0 + 0x100 * b1 + 0x1_0000 * b2 + 0x100_0000 * b3
  }

  /** The unsigned value of four consecutive bytes read most significant first. */
  function BigEndianWord(b0: byte, b1: byte, b2: byte, b3: byte): (w: nat)
    ensures w < Two32
  {
    0x100_0000 * b0 + 0x1_0000 * b1 + 0x100 * b2 + b3
  }

  /** Least significant byte first: the four bytes of a 32-bit word. */
  function Byte0(w: nat): byte requires w < Two32 { w % 0x100 }
  function Byte1(w: nat): byte requires w < Two32 { (w / 0x100) % 0x100 }
  function Byte2(w: nat): byte requires w < Two32 { (w / 0x100 / 0x100) % 0x100 }
  function Byte3(w: nat): byte requires w < Two32 { w / 0x100 / 0x100 / 0x100 }

  /** __builtin_bswap32: the word with its four bytes in reverse order. */
  function Bswap32(w: nat): (r: nat)
    requires w < Two32
    ensures r < Two32
  {
    HostWord(Byte3(w), Byte2(w), Byte1(w), Byte0(w))
  }

  /** Division by 256 is determined by quotient and remainder. */
  lemma DivMod256(x: int, q: int, r: int)
    requires 0 <= r < 0x100 && x == q * 0x100 + r
    ensures x / 0x100 == q && x % 0x100 == r
  {
  }

  /** Multiplication by a non-negative factor is monotonic. */
  lemma MulMono(a: int, b: int, c: int)
    requires a <= b && c >= 0
    ensures a * c <= b * c
  {
    assert b * c - a * c == (b - a) * c;
  }

  /** A word is the sum of its bytes. */
  lemma WordFromBytes(w: nat)
    requires w < Two32
    ensures w == HostWord(Byte0(w), Byte1(w), Byte2(w), Byte3(w))
  {
    var q1 := w / 0x100;
    var q2 := q1 / 0x100;
    var q3 := q2 / 0x100;
    assert w == q1 * 0x100 + Byte0(w);
    assert q1 == q2 * 0x100 + Byte1(w);
    assert q2 == q3 * 0x100 + Byte2(w);
  }

  /** The bytes of a host word are the bytes it was read from. */
  lemma BytesOfHostWord(b0: byte, b1: byte, b2: byte, b3: byte)
    ensures var w := HostWord(b0, b1, b2, b3);
            Byte0(w) == b0 && Byte1(w) == b1 && Byte2(w) == b2 && Byte3(w) == b3
  {
    var w := HostWord(b0, b1, b2, b3);
    DivMod256(w, b1 + 0x100 * b2 + 0x1_0000 * b3, b0);
    var q1 := b1 + 0x100 * b2 + 0x1_0000 * b3;
    DivMod256(q1, b2 + 0x100 * b3, b1);
    var q2 := b2 + 0x100 * b3;
    DivMod256(q2, b3, b2);
    DivMod256(b3, 0, b3);
  }

  /**
   * Byte-swapping a word read on a little-endian host yields the big-endian
   * value of the same four bytes: the IDX header convention.
   */
  lemma BswapOfHostWord(b0: byte, b1: byte, b2: byte, b3: byte)
    ensures Bswap32(HostWord(b0, b1, b2, b3)) == BigEndianWord(b0, b1, b2, b3)
  {
    BytesOfHostWord(b0, b1, b2, b3);
  }

  /** Swapping twice restores the word. */
  lemma Bswap32Involutive(w: nat)
    requires w < Two32
    ensures Bswap32(Bswap32(w)) == w
  {
    BytesOfHostWord(Byte3(w), Byte2(w), Byte1(w), Byte0(w));
    WordFromBytes(w);
  }

  /** Reinterpretation of an unsigned 32-bit pattern as int32 (two's complement). */
  function Int32(w: nat): (v: int)
    requires w < Two32
    ensures -Two31 <= v < Two31
    ensures v >= 0 <==> w < Two31
  {
    if w < Two31 then w else w - Two32
  }

  /** The header word at byte `at` of a file, as load_images and load_labels decode it. */
  function Word(file: seq<byte>, at: nat): (v: int)
    requires at + 4 <= |file|
    ensures v == Int32(BigEndianWord(file[at], file[at + 1], file[at + 2], file[at + 3]))
  {
    BswapOfHostWord(file[at], file[at + 1], file[at + 2], file[at + 3]);
    Int32(Bswap32(HostWord(file[at], file[at + 1], file[at + 2], file[at + 3])))
  }

  // ---------------------------------------------------------------------------
  // File layout
  // ---------------------------------------------------------------------------

  /** What load_images needs of the images file: a readable header and all the pixels it announces. */
  ghost predicate WellFormedImages(file: seq<byte>)
  {
    && |file| >= ImagesHeaderBytes
    && Word(file, 4) >= 0
    && 0 <= Word(file, 8) * Word(file, 12) < Two31
    && |file| >= ImagesHeaderBytes + Word(file, 4) * (Word(file, 8) * Word(file, 12))
  }

  /** What load_labels needs of the labels file: a readable header and all the labels it announces. */
  ghost predicate WellFormedLabels(file: seq<byte>)
  {
    && |file| >= LabelsHeaderBytes
    && Word(file, 4) >= 0
    && |file| >= LabelsHeaderBytes + Word(file, 4)
  }

  /** Byte offset of pixel j of image i in an images file with `width` pixels per image. */
  function PixelOffset(width: nat, i: nat, j: nat): nat
  {
    ImagesHeaderBytes + i * width + j
  }

  /**
   * `data` holds `count` images of `width` pixels each, pixel j of image i
   * being the byte at PixelOffset(width, i, j) of the file.
   */
  ghost predicate ImagesOf(file: seq<byte>, count: int, width: int, data: seq<seq<byte>>)
  {
    && |data| == count
    && (forall i :: 0 <= i < |data| ==> |data[i]| == width)
    && forall i, j :: 0 <= i < |data| && 0 <= j < width ==>
         PixelOffset(width, i, j) < |file| && j < |data[i]| &&
         data[i][j] == file[PixelOffset(width, i, j)]
  }

  // ---------------------------------------------------------------------------
  // A reference writer for images files
  // ---------------------------------------------------------------------------

  /** The four bytes of w, most significant first. */
  function BigEndianBytes(w: nat): (b: seq<byte>)
    requires w < Two32
    ensures |b| == 4
  {
    [Byte3(w), Byte2(w), Byte1(w), Byte0(w)]
  }

  /** Concatenation of equally long images, image-major. */
  function Flatten(images: seq<seq<byte>>): seq<byte>
  {
    if images == [] then [] else Flatten(images[..|images| - 1]) + images[|images| - 1]
  }

  lemma {:induction false} FlattenAt(images: seq<seq<byte>>, width: nat, i: nat, j: nat)
    requires forall m :: 0 <= m < |images| ==> |images[m]| == width
    requires i < |images| && j < width
    ensures |Flatten(images)| == |images| * width
    ensures i * width + j < |Flatten(images)|
    ensures Flatten(images)[i * width + j] == images[i][j]
  {
    var n := |images|;
    var init := images[..n - 1];
    FlattenLength(init, width);
    assert |Flatten(images)| == (n - 1) * width + width;
    if i < n - 1 {
      FlattenAt(init, width, i, j);
    } else {
      assert i * width == |Flatten(init)|;
    }
  }

  lemma {:induction false} FlattenLength(images: seq<seq<byte>>, width: nat)
    requires forall m :: 0 <= m < |images| ==> |images[m]| == width
    ensures |Flatten(images)| == |images| * width
  {
    if images != [] {
      FlattenLength(images[..|images| - 1], width);
    }
  }

  /** An images file as an IDX writer lays it out: header words big-endian, then the pixels image by image. */
  function EncodeImages(magic: nat, rows: nat, cols: nat, images: seq<seq<byte>>): (file: seq<byte>)
    requires magic < Two31 && |images| < Two31 && rows < Two31 && cols < Two31
    requires forall m :: 0 <= m < |images| ==> |images[m]| == rows * cols
    ensures |file| == ImagesHeaderBytes + |images| * (rows * cols)
  {
    FlattenLength(images, rows * cols);
    BigEndianBytes(magic) + BigEndianBytes(|images|) + BigEndianBytes(rows) + BigEndianBytes(cols)
      + Flatten(images)
  }

  /** A header word written big-endian decodes to itself. */
  lemma WordOfBigEndianBytes(file: seq<byte>, at: nat, w: nat)
    requires w < Two31 && at + 4 <= |file| && file[at..at + 4] == BigEndianBytes(w)
    ensures Word(file, at) == w
  {
    WordFromBytes(w);
    assert file[at] == Byte3(w) && file[at + 1] == Byte2(w);
    assert file[at + 2] == Byte1(w) && file[at + 3] == Byte0(w);
  }

  /** The header of an encoded images file decodes to the magic, count, rows and cols written. */
  lemma EncodedHeader(magic: nat, rows: nat, cols: nat, images: seq<seq<byte>>)
    requires magic < Two31 && |images| < Two31 && rows < Two31 && cols < Two31
    requires forall m :: 0 <= m < |images| ==> |images[m]| == rows * cols
    ensures var file := EncodeImages(magic, rows, cols, images);
            && Word(file, 0) == magic && Word(file, 4) == |images|
            && Word(file, 8) == rows && Word(file, 12) == cols
  {
    var file := EncodeImages(magic, rows, cols, images);
    assert file[0..4] == BigEndianBytes(magic);
    assert file[4..8] == BigEndianBytes(|images|);
    assert file[8..12] == BigEndianBytes(rows);
    assert file[12..16] == BigEndianBytes(cols);
    WordOfBigEndianBytes(file, 0, magic);
    WordOfBigEndianBytes(file, 4, |images|);
    WordOfBigEndianBytes(file, 8, rows);
    WordOfBigEndianBytes(file, 12, cols);
  }

  /** Pixels laid out image by image after a 16-byte header sit where load_images reads them. */
  lemma PixelsAfterHeader(header: seq<byte>, images: seq<seq<byte>>, width: nat)
    requires |header| == ImagesHeaderBytes
    requires forall m :: 0 <= m < |images| ==> |images[m]| == width
    ensures ImagesOf(header + Flatten(images), |images|, width, images)
  {
    var file := header + Flatten(images);
    forall i, j | 0 <= i < |images| && 0 <= j < width
      ensures PixelOffset(width, i, j) < |file| && file[PixelOffset(width, i, j)] == images[i][j]
    {
      FlattenAt(images, width, i, j);
    }
  }

  /** The pixels of an encoded images file sit where load_images reads them. */
  lemma EncodedPixels(magic: nat, rows: nat, cols: nat, images: seq<seq<byte>>)
    requires magic < Two31 && |images| < Two31 && rows < Two31 && cols < Two31
    requires forall m :: 0 <= m < |images| ==> |images[m]| == rows * cols
    ensures ImagesOf(EncodeImages(magic, rows, cols, images), |images|, rows * cols, images)
  {
    var header := BigEndianBytes(magic) + BigEndianBytes(|images|) + BigEndianBytes(rows) + BigEndianBytes(cols);
    assert EncodeImages(magic, rows, cols, images) == header + Flatten(images);
    PixelsAfterHeader(header, images, rows * cols);
  }

  /** The images an images file holds are determined by the file, the count and the width. */
  lemma ImagesOfUnique(file: seq<byte>, count: int, width: int, d1: seq<seq<byte>>, d2: seq<seq<byte>>)
    requires ImagesOf(file, count, width, d1) && ImagesOf(file, count, width, d2)
    ensures d1 == d2
  {
    forall i | 0 <= i < |d1|
      ensures d1[i] == d2[i]
    {
      forall j | 0 <= j < width
        ensures d1[i][j] == d2[i][j]
      {
        assert d1[i][j] == file[PixelOffset(width, i, j)];
      }
    }
  }

  /**
   * Decoding an encoded images file gives back its header and its images:
   * the file is one load_images accepts, and the only images it can load
   * from it are the ones written.
   */
  lemma DecodeEncodedImages(magic: nat, rows: nat, cols: nat, images: seq<seq<byte>>, loaded: seq<seq<byte>>)
    requires magic < Two31 && |images| < Two31 && rows < Two31 && cols < Two31
    requires rows * cols < Two31
    requires forall m :: 0 <= m < |images| ==> |images[m]| == rows * cols
    requires ImagesOf(EncodeImages(magic, rows, cols, images), |images|, rows * cols, loaded)
    ensures var file := EncodeImages(magic, rows, cols, images);
            && WellFormedImages(file)
            && Word(file, 0) == magic && Word(file, 4) == |images|
            && Word(file, 8) == rows && Word(file, 12) == cols
    ensures loaded == images
  {
    var file := EncodeImages(magic, rows, cols, images);
    EncodedHeader(magic, rows, cols, images);
    MulMono(0, rows, cols);
    assert Word(file, 8) * Word(file, 12) == rows * cols;
    assert |file| == ImagesHeaderBytes + Word(file, 4) * (Word(file, 8) * Word(file, 12));
    EncodedPixels(magic, rows, cols, images);
    ImagesOfUnique(file, |images|, rows * cols, loaded, images);
  }

  /** The inner pixel loop of load_images: width bytes from `start`, one at a time. */
  method ReadImage(file: seq<byte>, start: nat, width: nat) returns (image: seq<byte>)
    requires start + width <= |file|
    ensures image == file[start..start + width]
  {
    image := [];
    var pos := start;
    while pos < start + width
      invariant start <= pos <= start + width
      invariant image == file[start..pos]
    {
      image := image + [file[pos]];
      pos := pos + 1;
    }
  }

  /**
   * The pixel loop of load_images: from byte 16 on, count images of width
   * bytes each, in file order. Image i, pixel j is the byte at PixelOffset.
   */
  method ReadImages(file: seq<byte>, count: nat, width: nat) returns (data: seq<seq<byte>>)
    requires |file| >= ImagesHeaderBytes + count * width
    ensures ImagesOf(file, count, width, data)
  {
    data := [];
    var pos := ImagesHeaderBytes;
    for i := 0 to count
      invariant |data| == i
      invariant forall m :: 0 <= m < i ==> |data[m]| == width
      invariant pos == ImagesHeaderBytes + i * width <= |file|
      invariant Flatten(data) == file[ImagesHeaderBytes..pos]
    {
      MulMono(i + 1, count, width);
      assert (i + 1) * width == i * width + width;
      var image := ReadImage(file, pos, width);
      assert data + [image] == (data + [image])[..i] + [image];
      data := data + [image];
      assert file[ImagesHeaderBytes..pos + width] == file[ImagesHeaderBytes..pos] + image;
      pos := pos + width;
    }
    forall i, j | 0 <= i < count && 0 <= j < width
      ensures |data[i]| == width && PixelOffset(width, i, j) < |file| && data[i][j] == file[PixelOffset(width, i, j)]
    {
      FlattenAt(data, width, i, j);
    }
  }

  // ---------------------------------------------------------------------------
  // Pixel read-out
  // ---------------------------------------------------------------------------

  /** Mean-field intensity of a pixel: its byte value over 255. */
  function Intensity(pixel: byte): (r: real)
    ensures 0.0 <= r <= 1.0
    ensures r == 0.0 <==> pixel == 0
    ensures r == 1.0 <==> pixel == 255
  {
    pixel as real / 255.0
  }

  /** Binarised pixel: 1 exactly when the draw in [0, 254] falls below the pixel value. */
  function Threshold(draw: int, pixel: byte): (r: real)
    requires 0 <= draw < 255
    ensures r == 0.0 || r == 1.0
    ensures r == 1.0 <==> draw < pixel
    ensures pixel == 0 ==> r == 0.0
    ensures pixel == 255 ==> r == 1.0
  {
    if draw < pixel then 1.0 else 0.0
  }

  // ---------------------------------------------------------------------------
  // The dataset
  // ---------------------------------------------------------------------------

  class Dataset {
    var numImages: int
    var numRows: int
    var numCols: int
    var imageData: seq<seq<byte>>
    var labels: seq<byte>

    /**
     * MnistDataset::MnistDataset: load the images, then the labels. The
     * image count is overwritten by the label count.
     */
    constructor(imagesFile: seq<byte>, labelsFile: seq<byte>)
      requires WellFormedImages(imagesFile) && WellFormedLabels(labelsFile)
      ensures numRows == Word(imagesFile, 8) && numCols == Word(imagesFile, 12)
      ensures numImages == Word(labelsFile, 4)
      ensures ImagesOf(imagesFile, Word(imagesFile, 4), numRows * numCols, imageData)
      ensures |labels| == Word(labelsFile, 4)
      ensures forall i :: 0 <= i < |labels| ==> labels[i] == labelsFile[LabelsHeaderBytes + i]
    {
      numImages, numRows, numCols := 0, 0, 0;
      imageData, labels := [], [];
      new;
      LoadImages(imagesFile);
      LoadLabels(labelsFile);
    }

    /**
     * MnistDataset::load_images: decode the four header words, then read
     * count images of rows * cols pixels each, byte by byte.
     */
    method LoadImages(file: seq<byte>)
      requires WellFormedImages(file)
      modifies this
      ensures numImages == Word(file, 4) && numRows == Word(file, 8) && numCols == Word(file, 12)
      ensures labels == old(labels)
      ensures ImagesOf(file, numImages, numRows * numCols, imageData)
    {
      var magic := Word(file, 0);
      var count, rows, cols := Word(file, 4), Word(file, 8), Word(file, 12);
      var data := ReadImages(file, count, rows * cols);
      numImages, numRows, numCols, imageData := count, rows, cols, data;
    }

    /**
     * MnistDataset::load_labels: decode the two header words, overwrite the
     * image count with the label count, then read one byte per label.
     */
    method LoadLabels(file: seq<byte>)
      requires WellFormedLabels(file)
      modifies this
      ensures numImages == Word(file, 4)
      ensures numRows == old(numRows) && numCols == old(numCols) && imageData == old(imageData)
      ensures |labels| == numImages
      ensures forall i :: 0 <= i < |labels| ==> labels[i] == file[LabelsHeaderBytes + i]
    {
      var magic := Int32(Bswap32(HostWord(file[0], file[1], file[2], file[3])));
      numImages := Int32(Bswap32(HostWord(file[4], file[5], file[6], file[7])));
      var read: seq<byte> := [];
      var pos := LabelsHeaderBytes;
      for i := 0 to numImages
        invariant |read| == i
        invariant pos == LabelsHeaderBytes + i
        invariant forall k :: 0 <= k < i ==> read[k] == file[LabelsHeaderBytes + k]
      {
        read := read + [file[pos]];
        pos := pos + 1;
      }
      labels := read;
    }

    /** MnistDataset::get_value: always false. */
    function GetValue(i: int): (r: bool)
      ensures !r
    {
      false
    }

    /** MnistDataset::get_label: the stored label byte, unchanged. */
    function GetLabel(example: nat): (r: int)
      requires example < |labels|
      reads this
      ensures 0 <= r < 0x100
      ensures r == labels[example]
    {
      labels[example]
    }

    /** The pixel count of one image, as get_state and get_sample loop over it. */
    function Width(): int
      reads this
    {
      numRows * numCols
    }

    /**
     * MnistDataset::get_state: entry i becomes the intensity of pixel i of
     * the example; entries from rows * cols on are not written.
     */
    method GetState(out: array<real>, example: nat)
      requires example < |imageData| && |imageData[example]| == Width() <= out.Length
      modifies out
      ensures forall i :: 0 <= i < Width() ==> out[i] == Intensity(imageData[example][i])
      ensures forall i :: 0 <= i < Width() ==> 0.0 <= out[i] <= 1.0
      ensures forall i :: Width() <= i < out.Length ==> out[i] == old(out[i])
    {
      for i := 0 to Width()
        invariant forall k :: 0 <= k < i ==> out[k] == Intensity(imageData[example][k])
        invariant forall k :: i <= k < out.Length ==> out[k] == old(out[k])
      {
        out[i] := imageData[example][i] as real / 255.0;
      }
    }

    /**
     * MnistDataset::get_sample: entry i becomes 1 when the i-th uniform
     * integer draw in [0, 254] is below pixel i, else 0; entries from
     * rows * cols on are not written.
     */
    method GetSample(out: array<real>, example: nat, draws: seq<int>)
      requires example < |imageData| && |imageData[example]| == Width() <= out.Length
      requires |draws| == Width()
      requires forall i :: 0 <= i < |draws| ==> 0 <= draws[i] < 255
      modifies out
      ensures forall i :: 0 <= i < Width() ==> out[i] == Threshold(draws[i], imageData[example][i])
      ensures forall i :: Width() <= i < out.Length ==> out[i] == old(out[i])
    {
      for i := 0 to Width()
        invariant forall k :: 0 <= k < i ==> out[k] == Threshold(draws[k], imageData[example][k])
        invariant forall k :: i <= k < out.Length ==> out[k] == old(out[k])
      {
        if draws[i] < imageData[example][i] {
          out[i] := 1.0;
        } else {
          out[i] := 0.0;
        }
      }
    }
  }
}
