/** The two IDX dataset files the trainer reads. The labels file starts with
    the big-endian words 2049 and the count, followed by one byte per label.
    The images file starts with 2051, the count, 28 and 28, followed by
    28 * 28 pixel bytes per image. */
module Idx {
  import opened ByteOrder
  import opened Layout

  const LabelMagic: nat := 2049
  const ImageMagic: nat := 2051
  const ImageSide: nat := 28
  const ImagePixels: nat := 784
  const U32Modulus: nat := 4294967296

  /** The labels and pixels main keeps in memory once the headers check out. */
  datatype Dataset = Dataset(count: nat, labels: seq<byte>, pixels: seq<byte>)

  /** One label and 28 * 28 pixels per image. */
  predicate Consistent(ds: Dataset) {
    |ds.labels| == ds.count && |ds.pixels| == ds.count * ImagePixels
  }

  /** Why main gives up (exit status 1, or a failed assert). */
  datatype LoadError =
    | UnrecognizedLabels   // first word of the labels file is not 2049
    | UnrecognizedImages   // first word of the images file is not 2051
    | CountMismatch        // image count differs from label count
    | BadImageShape        // rows or cols is not 28
    | Truncated            // a file ends before the bytes its header announces

  datatype Result<T> = Ok(value: T) | Err(error: LoadError)

  /** The big-endian 32-bit word at `offset`, as load_big_endian<uint32_t> reads it. */
  function Word(file: seq<byte>, offset: nat): (w: nat)
    requires offset + 4 <= |file|
    ensures w < U32Modulus
  {
    assert Pow256(4) == U32Modulus;
    LoadBigEndian(file[offset..offset + 4])
  }


  /** `num_images * 28 * 28` as main writes it: uint32_t arithmetic, wrapping
      after each multiplication, which is the true size modulo 2^32. */
  function ImageBufferSizeAsWritten(numImages: nat): (size: nat)
    ensures size < U32Modulus
    ensures size == (numImages * ImagePixels) % U32Modulus
  {
    MulSideWraps(numImages * ImageSide);
    assert numImages * ImageSide * ImageSide == numImages * ImagePixels;
    ((numImages * ImageSide) % U32Modulus * ImageSide) % U32Modulus
  }

  /** Wrapping a uint32_t before multiplying it by 28 does not change the product modulo 2^32. */
  lemma MulSideWraps(a: nat)
    ensures ((a % U32Modulus) * ImageSide) % U32Modulus == (a * ImageSide) % U32Modulus
  {
    var q, r := a / U32Modulus, a % U32Modulus;
    var t, u := (r * ImageSide) / U32Modulus, (r * ImageSide) % U32Modulus;
    assert a * ImageSide == (q * ImageSide + t) * U32Modulus + u;
    CellOfIndex(q * ImageSide + t, u, U32Modulus);
  }

  /** With 5478275 images the buffer gets 304 bytes, far fewer than the
      5478275 * 784 bytes fread writes into it: pixel 304 of image 0 is
      already the first byte past its end. */
  lemma ImageBufferSizeWraps()
    ensures ImageBufferSizeAsWritten(5478275) == 304
    ensures ImageBufferSizeAsWritten(5478275) < ImageBufferSize(5478275)
  {
  }

  /** The size the image buffer needs: the count times 28 * 28, without wrap-around. */
  function ImageBufferSize(numImages: nat): nat {
    numImages * ImagePixels
  }

  /** Every pixel of every image lies inside a buffer of ImageBufferSize bytes. */
  lemma ImageBufferHoldsEveryPixel(numImages: nat, image: nat, texel: nat)
    requires image < numImages && texel < ImagePixels
    ensures image * ImagePixels + texel < ImageBufferSize(numImages)
  {
    CellInBounds(image, texel, numImages, ImagePixels);
  }

  /** The header checks of main, in the order main makes them. */
  predicate Accepted(labelFile: seq<byte>, imageFile: seq<byte>) {
    && |labelFile| >= 8 && Word(labelFile, 0) == LabelMagic
    && |labelFile| >= 8 + Word(labelFile, 4)
    && |imageFile| >= 16 && Word(imageFile, 0) == ImageMagic
    && Word(imageFile, 4) == Word(labelFile, 4)
    && Word(imageFile, 8) == ImageSide && Word(imageFile, 12) == ImageSide
    && |imageFile| >= 16 + ImageBufferSize(Word(imageFile, 4))
  }

  /** Reads both files as main does and checks every header word. */
  function ParseDataset(labelFile: seq<byte>, imageFile: seq<byte>): (r: Result<Dataset>)
    ensures r.Ok? <==> Accepted(labelFile, imageFile)
    ensures r.Ok? ==> Consistent(r.value) && r.value.count == Word(labelFile, 4)
    ensures r.Ok? ==> r.value.labels == labelFile[8..8 + r.value.count]
    ensures r.Ok? ==> r.value.pixels == imageFile[16..16 + r.value.count * ImagePixels]
    ensures |labelFile| >= 4 && Word(labelFile, 0) != LabelMagic ==> r == Err(UnrecognizedLabels)
    ensures r == Err(UnrecognizedImages) ==> |imageFile| >= 4 && Word(imageFile, 0) != ImageMagic
    ensures r == Err(CountMismatch) ==>
              |labelFile| >= 8 && |imageFile| >= 8 && Word(imageFile, 4) != Word(labelFile, 4)
    ensures r == Err(BadImageShape) ==>
              |imageFile| >= 16 && (Word(imageFile, 8) != ImageSide || Word(imageFile, 12) != ImageSide)
  {
    if |labelFile| < 4 then Err(Truncated)
    else if Word(labelFile, 0) != LabelMagic then Err(UnrecognizedLabels)
    else if |labelFile| < 8 then Err(Truncated)
    else
      var numLabels := Word(labelFile, 4);
      if |labelFile| < 8 + numLabels then Err(Truncated)
      else if |imageFile| < 4 then Err(Truncated)
      else if Word(imageFile, 0) != ImageMagic then Err(UnrecognizedImages)
      else if |imageFile| < 8 then Err(Truncated)
      else
        var numImages := Word(imageFile, 4);
        if numImages != numLabels then Err(CountMismatch)
        else if |imageFile| < 16 then Err(Truncated)
        else if Word(imageFile, 8) != ImageSide || Word(imageFile, 12) != ImageSide then Err(BadImageShape)
        else if |imageFile| < 16 + ImageBufferSize(numImages) then Err(Truncated)
        else Ok(Dataset(numImages, labelFile[8..8 + numLabels], imageFile[16..16 + ImageBufferSize(numImages)]))
  }

  /** A labels file holding these labels. */
  function LabelFile(labels: seq<byte>): seq<byte>
    requires |labels| < U32Modulus
  {
    BigEndianBytes(LabelMagic, 4) + BigEndianBytes(|labels|, 4) + labels
  }

  /** An images file holding `count` images of 28 x 28 pixels. */
  function ImageFile(count: nat, pixels: seq<byte>): seq<byte>
    requires count < U32Modulus
  {
    BigEndianBytes(ImageMagic, 4) + BigEndianBytes(count, 4)
      + BigEndianBytes(ImageSide, 4) + BigEndianBytes(ImageSide, 4) + pixels
  }

  /** A word written with BigEndianBytes reads back as itself. */
  lemma WordAt(file: seq<byte>, offset: nat, x: nat)
    requires x < U32Modulus && offset + 4 <= |file|
    requires file[offset..offset + 4] == BigEndianBytes(x, 4)
    ensures Word(file, offset) == x
  {
    assert Pow256(4) == U32Modulus;
    LoadBigEndianBytes(x, 4);
  }

  lemma LabelFileWords(labels: seq<byte>)
    requires |labels| < U32Modulus
    ensures |LabelFile(labels)| == 8 + |labels|
    ensures Word(LabelFile(labels), 0) == LabelMagic && Word(LabelFile(labels), 4) == |labels|
    ensures LabelFile(labels)[8..] == labels
  {
    var file := LabelFile(labels);
    assert file[0..4] == BigEndianBytes(LabelMagic, 4);
    assert file[4..8] == BigEndianBytes(|labels|, 4);
    WordAt(file, 0, LabelMagic);
    WordAt(file, 4, |labels|);
  }

  lemma ImageFileWords(count: nat, pixels: seq<byte>)
    requires count < U32Modulus
    ensures |ImageFile(count, pixels)| == 16 + |pixels|
    ensures Word(ImageFile(count, pixels), 0) == ImageMagic && Word(ImageFile(count, pixels), 4) == count
    ensures Word(ImageFile(count, pixels), 8) == ImageSide && Word(ImageFile(count, pixels), 12) == ImageSide
    ensures ImageFile(count, pixels)[16..] == pixels
  {
    var file := ImageFile(count, pixels);
    assert file[0..4] == BigEndianBytes(ImageMagic, 4);
    assert file[4..8] == BigEndianBytes(count, 4);
    assert file[8..12] == BigEndianBytes(ImageSide, 4);
    assert file[12..16] == BigEndianBytes(ImageSide, 4);
    WordAt(file, 0, ImageMagic);
    WordAt(file, 4, count);
    WordAt(file, 8, ImageSide);
    WordAt(file, 12, ImageSide);
  }

  /** Files that pass every check parse to the labels and pixels after the headers. */
  lemma ParseAccepted(labelFile: seq<byte>, imageFile: seq<byte>)
    requires Accepted(labelFile, imageFile)
    ensures ParseDataset(labelFile, imageFile) ==
            Ok(Dataset(Word(labelFile, 4), labelFile[8..8 + Word(labelFile, 4)],
                       imageFile[16..16 + ImageBufferSize(Word(labelFile, 4))]))
  {
  }

  /** Files whose header words announce exactly the dataset that follows them parse to it. */
  lemma ParseOfWords(labelFile: seq<byte>, imageFile: seq<byte>, ds: Dataset)
    requires Consistent(ds)
    requires |labelFile| == 8 + ds.count && labelFile[8..] == ds.labels
    requires Word(labelFile, 0) == LabelMagic && Word(labelFile, 4) == ds.count
    requires |imageFile| == 16 + |ds.pixels| && imageFile[16..] == ds.pixels
    requires Word(imageFile, 0) == ImageMagic && Word(imageFile, 4) == ds.count
    requires Word(imageFile, 8) == ImageSide && Word(imageFile, 12) == ImageSide
    ensures ParseDataset(labelFile, imageFile) == Ok(ds)
  {
    assert labelFile[8..8 + ds.count] == ds.labels;
    assert imageFile[16..16 + ImageBufferSize(ds.count)] == ds.pixels;
    ParseAccepted(labelFile, imageFile);
  }

  /** Parsing the files written for a dataset gives that dataset back. */
  lemma ParseEncoded(ds: Dataset)
    requires Consistent(ds) && ds.count < U32Modulus
    ensures ParseDataset(LabelFile(ds.labels), ImageFile(ds.count, ds.pixels)) == Ok(ds)
  {
    LabelFileWords(ds.labels);
    ImageFileWords(ds.count, ds.pixels);
    ParseOfWords(LabelFile(ds.labels), ImageFile(ds.count, ds.pixels), ds);
  }

  /** A labels file whose first word is not 2049 (1234, say) is rejected
      whatever follows it, and nothing else is read. */
  lemma RejectsForeignLabels(magic: nat, rest: seq<byte>, imageFile: seq<byte>)
    requires magic < U32Modulus && magic != LabelMagic
    ensures ParseDataset(BigEndianBytes(magic, 4) + rest, imageFile) == Err(UnrecognizedLabels)
  {
    var file := BigEndianBytes(magic, 4) + rest;
    assert file[0..4] == BigEndianBytes(magic, 4);
    WordAt(file, 0, magic);
  }
}
