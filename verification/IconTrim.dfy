/** Cropping an icon to its visible pixels. Pixels are four bytes, rows from the top. */
module IconTrim {
  import opened Basics

  /** A rectangle of pixels, its last column and row included. */
  datatype Box = Box(left: nat, top: nat, right: nat, bottom: nat) {
    predicate Has(x: nat, y: nat) { left <= x <= right && top <= y <= bottom }
    function Width(): nat { if left <= right then right - left + 1 else 0 }
    function Height(): nat { if top <= bottom then bottom - top + 1 else 0 }
  }

  datatype Icon = Icon(rgba: Bytes, width: nat, height: nat)

  /** Where a pixel starts. */
  function Offset(width: nat, x: nat, y: nat): nat {
    (y * width + x) * 4
  }

  predicate WellSized(icon: Icon) {
    icon.width > 0 && icon.height > 0 && |icon.rgba| == icon.width * icon.height * 4
  }

  lemma RowsFit(width: nat, y: nat, height: nat)
    requires y < height
    ensures y * width + width <= height * width
  {
    assert (height - y - 1) * width >= 0;
    assert height * width == y * width + width + (height - y - 1) * width;
  }

  lemma PixelInside(icon: Icon, x: nat, y: nat)
    requires WellSized(icon) && x < icon.width && y < icon.height
    ensures Offset(icon.width, x, y) + 4 <= |icon.rgba|
  {
    RowsFit(icon.width, y, icon.height);
  }

  function Pixel(icon: Icon, x: nat, y: nat): (p: Bytes)
    requires WellSized(icon) && x < icon.width && y < icon.height
    ensures |p| == 4
  {
    PixelInside(icon, x, y);
    icon.rgba[Offset(icon.width, x, y)..Offset(icon.width, x, y) + 4]
  }

  /** `icon_pixel_is_visible`: not transparent, and not black. */
  predicate IsVisible(p: Bytes)
    requires |p| == 4
  {
    p[3] > 0 && (p[0] != 0 || p[1] != 0 || p[2] != 0)
  }

  predicate Visible(icon: Icon, x: nat, y: nat)
    requires WellSized(icon)
  {
    x < icon.width && y < icon.height && IsVisible(Pixel(icon, x, y))
  }

  ghost predicate Covers(icon: Icon, b: Box)
    requires WellSized(icon)
  {
    forall x, y :: Visible(icon, x, y) ==> b.Has(x, y)
  }

  /** Every side of the box meets a visible pixel inside the picture. */
  ghost predicate Touches(icon: Icon, b: Box)
    requires WellSized(icon)
  {
    && (exists y :: Visible(icon, b.left, y)) && (exists y :: Visible(icon, b.right, y))
    && (exists x :: Visible(icon, x, b.top)) && (exists x :: Visible(icon, x, b.bottom))
  }

  ghost predicate IsTight(icon: Icon, b: Box)
    requires WellSized(icon)
  {
    Covers(icon, b) && Touches(icon, b)
  }

  /** A tight box is the smallest: it lies inside every box that covers what is visible. */
  lemma TightIsSmallest(icon: Icon, b: Box, other: Box)
    requires WellSized(icon) && IsTight(icon, b) && Covers(icon, other)
    ensures other.left <= b.left <= b.right <= other.right && other.top <= b.top <= b.bottom <= other.bottom
    ensures b.right < icon.width && b.bottom < icon.height
  {
    var y0 :| Visible(icon, b.left, y0);
    var y1 :| Visible(icon, b.right, y1);
    var x0 :| Visible(icon, x0, b.top);
    var x1 :| Visible(icon, x1, b.bottom);
    assert other.Has(b.left, y0) && other.Has(b.right, y1) && other.Has(x0, b.top) && other.Has(x1, b.bottom);
    assert b.Has(b.left, y0) && b.Has(x0, b.top);
  }

  lemma TightIsUnique(icon: Icon, b: Box, c: Box)
    requires WellSized(icon) && IsTight(icon, b) && IsTight(icon, c)
    ensures b == c
  {
    TightIsSmallest(icon, b, c);
    TightIsSmallest(icon, c, b);
  }

  // ------------------------------------------------------------------
  // Cropping
  // ------------------------------------------------------------------

  /** `count` pixels of row y, from column x. */
  function RowPart(icon: Icon, x: nat, y: nat, count: nat): (r: Bytes)
    requires WellSized(icon) && x + count <= icon.width && y < icon.height
    ensures |r| == count * 4
    ensures forall i :: 0 <= i < |r| ==>
      Offset(icon.width, x, y) + i < |icon.rgba| && r[i] == icon.rgba[Offset(icon.width, x, y) + i]
  {
    RowsFit(icon.width, y, icon.height);
    icon.rgba[Offset(icon.width, x, y)..Offset(icon.width, x, y) + count * 4]
  }

  predicate Within(icon: Icon, b: Box) {
    WellSized(icon) && b.left <= b.right < icon.width && b.top <= b.bottom < icon.height
  }

  /** The first rows of the crop. */
  function CropRows(icon: Icon, b: Box, rows: nat): (r: Bytes)
    requires Within(icon, b) && rows <= b.Height()
    ensures |r| == rows * b.Width() * 4
  {
    if rows == 0 then []
    else
      assert rows * b.Width() == (rows - 1) * b.Width() + b.Width();
      CropRows(icon, b, rows - 1) + RowPart(icon, b.left, b.top + rows - 1, b.Width())
  }

  function Crop(icon: Icon, b: Box): Icon
    requires Within(icon, b)
  {
    Icon(CropRows(icon, b, b.Height()), b.Width(), b.Height())
  }

  lemma {:induction false} CropRowsAt(icon: Icon, b: Box, rows: nat, x: nat, y: nat, k: nat)
    requires Within(icon, b) && rows <= b.Height() && x < b.Width() && y < rows && k < 4
    ensures Offset(b.Width(), x, y) + k < rows * b.Width() * 4
    ensures Offset(icon.width, b.left + x, b.top + y) + k < |icon.rgba|
    ensures CropRows(icon, b, rows)[Offset(b.Width(), x, y) + k] ==
            icon.rgba[Offset(icon.width, b.left + x, b.top + y) + k]
  {
    var width, row := b.Width(), b.top + y;
    RowsFit(width, y, rows);
    PixelInside(icon, b.left + x, row);
    var before := CropRows(icon, b, rows - 1);
    var last := RowPart(icon, b.left, b.top + rows - 1, width);
    assert CropRows(icon, b, rows) == before + last;
    if y == rows - 1 {
      var i := x * 4 + k;
      assert Offset(width, x, y) + k == |before| + i;
      assert last[i] == icon.rgba[Offset(icon.width, b.left, row) + i];
      assert Offset(icon.width, b.left, row) + i == Offset(icon.width, b.left + x, row) + k;
    } else {
      CropRowsAt(icon, b, rows - 1, x, y, k);
      assert (before + last)[Offset(width, x, y) + k] == before[Offset(width, x, y) + k];
    }
  }

  /** Each pixel of the crop is the source's pixel at the offset. */
  lemma CropPixel(icon: Icon, b: Box, x: nat, y: nat)
    requires Within(icon, b) && x < b.Width() && y < b.Height()
    ensures WellSized(Crop(icon, b)) && Pixel(Crop(icon, b), x, y) == Pixel(icon, b.left + x, b.top + y)
  {
    CropWellSized(icon, b);
    var c, p, q := Crop(icon, b), Pixel(Crop(icon, b), x, y), Pixel(icon, b.left + x, b.top + y);
    forall k | 0 <= k < 4 ensures p[k] == q[k] {
      SameByte(icon, b, x, y, k);
    }
  }

  lemma PixelByte(icon: Icon, x: nat, y: nat, k: nat)
    requires WellSized(icon) && x < icon.width && y < icon.height && k < 4
    ensures Offset(icon.width, x, y) + k < |icon.rgba|
    ensures Pixel(icon, x, y)[k] == icon.rgba[Offset(icon.width, x, y) + k]
  {
    PixelInside(icon, x, y);
  }

  lemma SameByte(icon: Icon, b: Box, x: nat, y: nat, k: nat)
    requires Within(icon, b) && WellSized(Crop(icon, b)) && x < b.Width() && y < b.Height() && k < 4
    ensures Pixel(Crop(icon, b), x, y)[k] == Pixel(icon, b.left + x, b.top + y)[k]
  {
    var c, at := Crop(icon, b), Offset(b.Width(), x, y) + k;
    CropRowsAt(icon, b, b.Height(), x, y, k);
    assert c.rgba[at] == icon.rgba[Offset(icon.width, b.left + x, b.top + y) + k];
    PixelByte(c, x, y, k);
    PixelByte(icon, b.left + x, b.top + y, k);
  }

  lemma CropWellSized(icon: Icon, b: Box)
    requires Within(icon, b)
    ensures WellSized(Crop(icon, b))
  {
    assert b.Height() * b.Width() == b.Width() * b.Height();
  }

  // ------------------------------------------------------------------
  // The search for the box
  // ------------------------------------------------------------------

  /** The scan has passed the pixel. */
  predicate Passed(x: nat, y: nat, atX: nat, atY: nat) {
    y < atY || (y == atY && x < atX)
  }

  ghost predicate NoneSeen(icon: Icon, atX: nat, atY: nat)
    requires WellSized(icon)
  {
    forall x, y :: Visible(icon, x, y) ==> !Passed(x, y, atX, atY)
  }

  ghost predicate TightSoFar(icon: Icon, b: Box, atX: nat, atY: nat)
    requires WellSized(icon)
  {
    && (forall x, y :: Visible(icon, x, y) && Passed(x, y, atX, atY) ==> b.Has(x, y))
    && Touches(icon, b)
  }

  function Grown(b: Box, x: nat, y: nat): Box {
    Box(if x < b.left then x else b.left, if y < b.top then y else b.top,
        if x > b.right then x else b.right, if y > b.bottom then y else b.bottom)
  }

  lemma GrownIsTight(icon: Icon, b: Box, x: nat, y: nat, found: bool)
    requires WellSized(icon) && Visible(icon, x, y)
    requires if found then TightSoFar(icon, b, x, y)
             else NoneSeen(icon, x, y) && b == Box(icon.width, icon.height, 0, 0)
    ensures TightSoFar(icon, Grown(b, x, y), x + 1, y)
  {
    var g := Grown(b, x, y);
    if !found { assert g == Box(x, y, x, y); }
    assert Touches(icon, g);
    forall p, q | Visible(icon, p, q) && Passed(p, q, x + 1, y) ensures g.Has(p, q) {
      assert (p == x && q == y) || Passed(p, q, x, y);
    }
  }

  /** The nested scan for the bounding box. Buffers stay under 4 GiB, so that the 32-bit
      index arithmetic does not wrap. */
  method FindBox(rgba: Bytes, width: nat, height: nat) returns (found: bool, box: Box)
    requires |rgba| < 0x1_0000_0000 && WellSized(Icon(rgba, width, height))
    ensures found <==> exists x, y :: Visible(Icon(rgba, width, height), x, y)
    ensures found ==> IsTight(Icon(rgba, width, height), box)
  {
    ghost var icon := Icon(rgba, width, height);
    var minX: nat, minY: nat, maxX: nat, maxY: nat := width, height, 0, 0;
    found := false;
    for y := 0 to height
      invariant ScanOk(icon, Box(minX, minY, maxX, maxY), found, 0, y)
    {
      for x := 0 to width
        invariant ScanOk(icon, Box(minX, minY, maxX, maxY), found, x, y)
      {
        PixelInside(icon, x, y);
        var index := (y * width + x) * 4;
        assert index < 0x1_0000_0000;
        if IsVisible(rgba[index..index + 4]) {
          GrownIsTight(icon, Box(minX, minY, maxX, maxY), x, y, found);
          minX := if x < minX then x else minX;
          minY := if y < minY then y else minY;
          maxX := if x > maxX then x else maxX;
          maxY := if y > maxY then y else maxY;
          found := true;
        } else {
          NotSeen(icon, Box(minX, minY, maxX, maxY), x, y, found);
        }
      }
      NextRow(icon, Box(minX, minY, maxX, maxY), y, found);
    }
    box := Box(minX, minY, maxX, maxY);
    AllSeen(icon, box, found);
  }

  lemma NextCropRow(icon: Icon, b: Box, y: nat)
    requires Within(icon, b) && b.top <= y <= b.bottom
    ensures
      var start := (y * icon.width + b.left) * 4;
      && start + b.Width() * 4 <= |icon.rgba|
      && CropRows(icon, b, y + 1 - b.top) ==
         CropRows(icon, b, y - b.top) + icon.rgba[start..start + b.Width() * 4]
  {
    var start := Offset(icon.width, b.left, y);
    RowsFit(icon.width, y, icon.height);
    var row := RowPart(icon, b.left, y, b.Width());
    assert row == icon.rgba[start..start + b.Width() * 4];
  }

  /** The loop that copies the rows of the box. */
  method CopyRows(rgba: Bytes, width: nat, height: nat, box: Box) returns (cropped: Bytes)
    requires |rgba| < 0x1_0000_0000 && Within(Icon(rgba, width, height), box)
    ensures cropped == CropRows(Icon(rgba, width, height), box, box.Height())
  {
    ghost var icon := Icon(rgba, width, height);
    var count := box.Width() * 4;
    cropped := [];
    for y := box.top to box.bottom + 1
      invariant cropped == CropRows(icon, box, y - box.top)
    {
      NextCropRow(icon, box, y);
      var start := (y * width + box.left) * 4;
      var end := start + count;
      assert end < 0x1_0000_0000;
      cropped := cropped + rgba[start..end];
    }
  }

  /** `trim_icon_transparent_padding`; the box is only named for the contract. */
  method TrimIconTransparentPadding(rgba: Bytes, width: nat, height: nat) returns (r: Option<Icon>, ghost box: Box)
    requires |rgba| < 0x1_0000_0000
    ensures r.None? <==> !WellSized(Icon(rgba, width, height)) ||
                         forall x, y :: !Visible(Icon(rgba, width, height), x, y)
    ensures r.Some? ==> Within(Icon(rgba, width, height), box) && IsTight(Icon(rgba, width, height), box) &&
                        r.value == Crop(Icon(rgba, width, height), box)
  {
    box := Box(0, 0, 0, 0);
    if width == 0 || height == 0 || |rgba| != width * height * 4 {
      return None, box;
    }
    var found, b := FindBox(rgba, width, height);
    if !found {
      return None, box;
    }
    box := b;
    TightIsSmallest(Icon(rgba, width, height), b, b);
    var cropped := CopyRows(rgba, width, height, b);
    r := Some(Icon(cropped, b.Width(), b.Height()));
  }

  ghost predicate ScanOk(icon: Icon, b: Box, found: bool, atX: nat, atY: nat)
    requires WellSized(icon)
  {
    if found then TightSoFar(icon, b, atX, atY)
    else NoneSeen(icon, atX, atY) && b == Box(icon.width, icon.height, 0, 0)
  }

  lemma NotSeen(icon: Icon, b: Box, x: nat, y: nat, found: bool)
    requires WellSized(icon) && ScanOk(icon, b, found, x, y) && !Visible(icon, x, y)
    ensures ScanOk(icon, b, found, x + 1, y)
  {
    forall p, q | Visible(icon, p, q) && Passed(p, q, x + 1, y) ensures Passed(p, q, x, y) {
    }
  }

  lemma NextRow(icon: Icon, b: Box, y: nat, found: bool)
    requires WellSized(icon) && ScanOk(icon, b, found, icon.width, y)
    ensures ScanOk(icon, b, found, 0, y + 1)
  {
    forall p, q | Visible(icon, p, q) && Passed(p, q, 0, y + 1) ensures Passed(p, q, icon.width, y) {
    }
  }

  lemma AllSeen(icon: Icon, b: Box, found: bool)
    requires WellSized(icon) && ScanOk(icon, b, found, 0, icon.height)
    ensures if found then IsTight(icon, b) else forall x, y :: !Visible(icon, x, y)
    ensures found ==> exists x, y :: Visible(icon, x, y)
  {
    forall x, y | Visible(icon, x, y) ensures Passed(x, y, 0, icon.height) {
    }
  }

  // ------------------------------------------------------------------
  // Trimming again
  // ------------------------------------------------------------------

  /** The whole picture as a box. */
  function Whole(icon: Icon): Box
    requires WellSized(icon)
  {
    Box(0, 0, icon.width - 1, icon.height - 1)
  }

  /** Nothing more can be trimmed from a trimmed icon: it has visible pixels, and whatever
      box a second trim finds, cropping to it changes nothing. */
  lemma TrimAgain(icon: Icon, b: Box)
    requires Within(icon, b) && IsTight(icon, b)
    ensures WellSized(Crop(icon, b)) && exists x, y :: Visible(Crop(icon, b), x, y)
    ensures forall c :: Within(Crop(icon, b), c) && IsTight(Crop(icon, b), c) ==> Crop(Crop(icon, b), c) == Crop(icon, b)
  {
    CropWellSized(icon, b);
    var y := ColumnTouched(icon, b, b.left);
    forall c | Within(Crop(icon, b), c) && IsTight(Crop(icon, b), c) ensures Crop(Crop(icon, b), c) == Crop(icon, b) {
      WholeIsTight(icon, b);
      TightIsUnique(Crop(icon, b), Whole(Crop(icon, b)), c);
      CropWhole(Crop(icon, b));
    }
  }

  lemma VisibleInCrop(icon: Icon, b: Box, x: nat, y: nat) returns (cx: nat, cy: nat)
    requires Within(icon, b) && Covers(icon, b) && WellSized(Crop(icon, b)) && Visible(icon, x, y)
    ensures x == b.left + cx && y == b.top + cy && Visible(Crop(icon, b), cx, cy)
  {
    assert b.Has(x, y);
    cx, cy := x - b.left, y - b.top;
    CropPixel(icon, b, cx, cy);
  }

  lemma ColumnTouched(icon: Icon, b: Box, x: nat) returns (at: nat)
    requires Within(icon, b) && Covers(icon, b) && WellSized(Crop(icon, b)) && exists y :: Visible(icon, x, y)
    ensures x >= b.left && Visible(Crop(icon, b), x - b.left, at)
  {
    var y :| Visible(icon, x, y);
    var _, cy := VisibleInCrop(icon, b, x, y);
    at := cy;
  }

  lemma RowTouched(icon: Icon, b: Box, y: nat) returns (at: nat)
    requires Within(icon, b) && Covers(icon, b) && WellSized(Crop(icon, b)) && exists x :: Visible(icon, x, y)
    ensures y >= b.top && Visible(Crop(icon, b), at, y - b.top)
  {
    var x :| Visible(icon, x, y);
    var cx, _ := VisibleInCrop(icon, b, x, y);
    at := cx;
  }

  lemma CornersTight(icon: Icon, y0: nat, y1: nat, x0: nat, x1: nat)
    requires WellSized(icon) && Visible(icon, 0, y0) && Visible(icon, icon.width - 1, y1)
    requires Visible(icon, x0, 0) && Visible(icon, x1, icon.height - 1)
    ensures IsTight(icon, Whole(icon))
  {
  }

  lemma WholeIsTight(icon: Icon, b: Box)
    requires Within(icon, b) && IsTight(icon, b) && WellSized(Crop(icon, b))
    ensures IsTight(Crop(icon, b), Whole(Crop(icon, b)))
  {
    var y0 := ColumnTouched(icon, b, b.left);
    var y1 := ColumnTouched(icon, b, b.right);
    var x0 := RowTouched(icon, b, b.top);
    var x1 := RowTouched(icon, b, b.bottom);
    CornersTight(Crop(icon, b), y0, y1, x0, x1);
  }

  lemma RowBytes(width: nat, rows: nat)
    requires rows > 0
    ensures ((rows - 1) * width) * 4 + width * 4 == rows * width * 4
  {
    assert (rows - 1) * width + width == rows * width;
  }

  lemma {:induction false} CropRowsWhole(icon: Icon, rows: nat)
    requires WellSized(icon) && rows <= icon.height
    ensures rows * icon.width * 4 <= |icon.rgba|
    ensures CropRows(icon, Whole(icon), rows) == icon.rgba[..rows * icon.width * 4]
  {
    if rows > 0 {
      CropRowsWhole(icon, rows - 1);
      RowBytes(icon.width, rows);
      NextCropRow(icon, Whole(icon), rows - 1);
      SplitAt(icon.rgba, ((rows - 1) * icon.width) * 4, icon.width * 4);
    }
  }

  lemma SplitAt(rgba: Bytes, from: nat, count: nat)
    requires from + count <= |rgba|
    ensures rgba[..from] + rgba[from..from + count] == rgba[..from + count]
  {
  }

  lemma CropWhole(icon: Icon)
    requires WellSized(icon)
    ensures Crop(icon, Whole(icon)) == icon
  {
    CropRowsWhole(icon, icon.height);
    assert icon.height * icon.width == icon.width * icon.height;
    assert icon.rgba[..|icon.rgba|] == icon.rgba;
  }
}
