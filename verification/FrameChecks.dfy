/** Which frames are taken: the receiver's check of a header, and the renderer's
    own check of the frame. Every intermediate value has its machine type. */
module FrameChecks {
  import opened Common
  import opened Frames

  type CInt = x: int | -0x8000_0000 <= x < 0x8000_0000
  type Usize = x: int | 0 <= x < 0x1_0000_0000_0000_0000

  const MAX_FRAME_WIDTH: U32 := 3840
  const MAX_FRAME_HEIGHT: U32 := 2160
  const FORMAT_PROGRESSIVE: CInt := 1
  const FOURCC_UYVY: U32 := 0x5956_5955

  datatype VideoHeader = VideoHeader(
    width: CInt, height: CInt, fourCc: U32, formatType: CInt, stride: CInt,
    rateNumerator: CInt, rateDenominator: CInt, hasData: bool)

  datatype Checked = Checked(
    width: U32, height: U32, stride: U32, length: Usize, rateNumerator: U32, rateDenominator: U32)

  datatype Refusal = WithoutPicture | NotProgressive | NotUyvy | BadSize | BadWidth | BadRows | TooShort

  /** `u32::try_from`. */
  function ToU32(value: CInt): Option<U32> { if value >= 0 then Some(value) else None }

  function Sized(value: CInt, largest: U32): Option<U32> {
    var u := ToU32(value);
    if u.Some? && 1 <= u.value <= largest then u else None
  }

  function Rate(value: CInt): U32 { if value >= 0 then value else 0 }

  lemma ProductGrows(a: nat, b: nat, c: nat, d: nat)
    requires a <= c && b <= d
    ensures a * b <= c * d
  {
    MoreTimes(b, a, c);
    MoreTimes(c, b, d);
  }

  lemma MoreTimes(a: nat, b: nat, c: nat)
    requires b <= c
    ensures a * b <= a * c
  {
    assert a * (c - b) >= 0;
  }

  /** The bytes of `height` rows, the last only to its own end. */
  function Length(width: U32, height: U32, stride: U32): Usize
    requires 1 <= height <= MAX_FRAME_HEIGHT && width <= MAX_FRAME_WIDTH && stride <= MAX_FRAME_WIDTH * 4
  {
    ProductGrows(stride, height - 1, MAX_FRAME_WIDTH * 4, MAX_FRAME_HEIGHT);
    var rows: Usize := stride * (height - 1);
    var row: Usize := width * 2;
    rows + row
  }

  /** `check_video`. */
  function CheckVideo(header: VideoHeader): Result<Checked, Refusal> {
    if !header.hasData then Err(WithoutPicture)
    else if header.formatType != FORMAT_PROGRESSIVE then Err(NotProgressive)
    else if header.fourCc != FOURCC_UYVY then Err(NotUyvy)
    else
      var width, height := Sized(header.width, MAX_FRAME_WIDTH), Sized(header.height, MAX_FRAME_HEIGHT);
      if width.None? || height.None? then Err(BadSize)
      else if width.value < 2 || width.value % 2 != 0 then Err(BadWidth)
      else
        var least: U32 := width.value * 2;
        var most: U32 := MAX_FRAME_WIDTH * 4;
        var stride := ToU32(header.stride);
        if stride.None? || stride.value < least || stride.value > most then Err(BadRows)
        else
          Ok(Checked(width.value, height.value, stride.value, Length(width.value, height.value, stride.value),
                     Rate(header.rateNumerator), Rate(header.rateDenominator)))
  }

  /** The shape `Picture::check` asks for. The products are reached only once
      the width is known to be small. */
  predicate IsSized(width: U32, height: U32, stride: U32) {
    && width >= 2
    && width % 2 == 0
    && height >= 1
    && width <= MAX_FRAME_WIDTH
    && height <= MAX_FRAME_HEIGHT
    && (var row: U32 := width * 2; stride >= row)
    && (var most: U32 := MAX_FRAME_WIDTH * 4; stride <= most)
  }

  /** `Picture::check`. */
  function CheckPicture(bytes: seq<Byte>, width: U32, height: U32, stride: U32): Result<(), Refusal> {
    if !IsSized(width, height, stride) then Err(BadSize)
    else if |bytes| < Length(width, height, stride) then Err(TooShort)
    else Ok(())
  }

  /** Row `y` lies inside the bytes, from its start to its own end. */
  predicate RowInside(bytes: seq<Byte>, width: U32, stride: U32, y: nat) {
    y * stride + 2 * width <= |bytes|
  }

  /** A frame of the right shape is taken if and only if every row lies inside
      its bytes: the check refuses nothing it could draw. */
  lemma TakenIffRowsInside(bytes: seq<Byte>, width: U32, height: U32, stride: U32)
    requires IsSized(width, height, stride)
    ensures CheckPicture(bytes, width, height, stride).Ok?
            <==> forall y: nat | y < height :: RowInside(bytes, width, stride, y)
  {
    forall y: nat | y < height
      ensures y * stride <= stride * (height - 1)
    {
      MoreTimes(stride, y, height - 1);
    }
    if forall y: nat | y < height :: RowInside(bytes, width, stride, y) {
      assert RowInside(bytes, width, stride, height - 1);
    }
  }

  /** Which frames the renderer takes: progressive rows of two bytes a pixel, at most
      3840 by 2160, of an even width, in rows of at most four bytes a pixel of the
      widest; and every row inside the bytes. */
  lemma PictureIsTakenIff(bytes: seq<Byte>, width: U32, height: U32, stride: U32)
    ensures CheckPicture(bytes, width, height, stride).Ok?
            <==> && 2 <= width <= 3840 && width % 2 == 0 && 1 <= height <= 2160
                 && 2 * width <= stride <= 15360
                 && forall y: nat | y < height :: RowInside(bytes, width, stride, y)
  {
    if IsSized(width, height, stride) {
      TakenIffRowsInside(bytes, width, height, stride);
    }
  }

  /** Which headers are accepted on receipt, and what is read from them: the frame's
      own sizes, the bytes of its rows, and its rate, none of it negative. */
  lemma HeaderIsAcceptedIff(header: VideoHeader)
    ensures CheckVideo(header).Ok?
            <==> && header.hasData && header.formatType == 1 && header.fourCc == 0x5956_5955
                 && 2 <= header.width <= 3840 && header.width % 2 == 0 && 1 <= header.height <= 2160
                 && 2 * header.width <= header.stride <= 15360
    ensures CheckVideo(header).Ok? ==>
              var c := CheckVideo(header).value;
              && c.width == header.width && c.height == header.height && c.stride == header.stride
              && c.length == header.stride * (header.height - 1) + 2 * header.width
              && c.rateNumerator == (if header.rateNumerator < 0 then 0 else header.rateNumerator)
              && c.rateDenominator == (if header.rateDenominator < 0 then 0 else header.rateDenominator)
  {
  }

  /** A frame accepted on receipt is accepted by the renderer: the bytes that
      are read off the library are exactly enough, and one less is too few. */
  lemma AcceptedOnReceiptIsTaken(header: VideoHeader, bytes: seq<Byte>)
    requires CheckVideo(header).Ok?
    ensures var c := CheckVideo(header).value;
            && IsSized(c.width, c.height, c.stride)
            && (CheckPicture(bytes, c.width, c.height, c.stride).Ok? <==> |bytes| >= c.length)
            && (|bytes| == c.length ==> forall y: nat | y < c.height :: RowInside(bytes, c.width, c.stride, y))
  {
    var c := CheckVideo(header).value;
    TakenIffRowsInside(bytes, c.width, c.height, c.stride);
  }
}
