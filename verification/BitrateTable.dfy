/** The default bitrate of a video: a table of sizes, joined by straight lines, over the reals. */
module BitrateTable {

  datatype Point = Point(size: real, bitrate: real)

  const LAST := 6

  /** Pixels per second over 30, and kbps. */
  function Table(i: nat): Point
    requires i <= LAST
  {
    if i == 0 then Point(0.0, 0.0)
    else if i == 1 then Point(76800.0, 400.0)
    else if i == 2 then Point(307200.0, 800.0)
    else if i == 3 then Point(921600.0, 2000.0)
    else if i == 4 then Point(2073600.0, 4000.0)
    else if i == 5 then Point(8294400.0, 16000.0)
    else Point(33177600.0, 64000.0)
  }

  function Size(width: real, height: real, framerate: real): real {
    width * height * framerate / 30.0
  }

  /** The size lies on segment `i`. */
  predicate On(size: real, i: nat) {
    i < LAST && Table(i).size < size <= Table(i + 1).size
  }

  /** The height at `x` of the straight line through two points. */
  function Line(p: Point, q: Point, x: real): real
    requires p.size < q.size
  {
    p.bitrate + (q.bitrate - p.bitrate) * ((x - p.size) / (q.size - p.size))
  }

  /** What the table stands for: the segment's line, and the top bitrate for sizes on no segment. */
  ghost predicate IsBitrateOf(size: real, bitrate: real) {
    && (forall i: nat :: On(size, i) ==> bitrate == Line(Table(i), Table(i + 1), size))
    && ((forall i: nat :: !On(size, i)) ==> bitrate == 64000.0)
  }

  lemma OneSegment(size: real, i: nat, j: nat)
    requires On(size, i) && On(size, j)
    ensures i == j
  {}

  /** Exactly the positive sizes up to the end of the table lie on a segment. */
  lemma Covered(size: real)
    ensures (exists i: nat :: On(size, i)) <==> 0.0 < size <= Table(LAST).size
  {
    if 0.0 < size <= Table(LAST).size {
      var i := 0;
      while size > Table(i + 1).size
        invariant i < LAST && Table(i).size < size
        decreases LAST - i
      {
        i := i + 1;
      }
      assert On(size, i);
    }
  }

  lemma Divides(x: real, y: real, w: real)
    requires x < y && 0.0 < w
    ensures x / w < y / w
  {
    assert (y - x) / w > 0.0;
    assert y / w == (y - x) / w + x / w;
  }

  lemma Fractions(u: real, v: real, w: real)
    requires 0.0 <= u <= v <= w && 0.0 < w
    ensures 0.0 <= u / w <= v / w <= 1.0
    ensures 0.0 < u ==> 0.0 < u / w
    ensures u < v ==> u / w < v / w
    ensures v == w ==> v / w == 1.0
  {
    assert 0.0 / w == 0.0 && w / w == 1.0;
    if 0.0 < u {
      Divides(0.0, u, w);
    }
    if u < v {
      Divides(u, v, w);
    }
    if v < w {
      Divides(v, w, w);
    }
  }

  lemma Products(h: real, u: real, v: real)
    requires h > 0.0 && 0.0 <= u <= v <= 1.0
    ensures 0.0 <= h * u <= h * v <= h
    ensures 0.0 < u ==> 0.0 < h * u
    ensures u < v ==> h * u < h * v
    ensures v == 1.0 ==> h * v == h
  {}

  /** A line between two rising points stays between them, rises, and ends in the second. */
  lemma LineRises(p: Point, q: Point, x: real, y: real)
    requires p.size < q.size && p.bitrate < q.bitrate && p.size < x <= y <= q.size
    ensures p.bitrate < Line(p, q, x) <= Line(p, q, y) <= q.bitrate
    ensures x < y ==> Line(p, q, x) < Line(p, q, y)
    ensures y == q.size ==> Line(p, q, y) == q.bitrate
  {
    Fractions(x - p.size, y - p.size, q.size - p.size);
    var h := q.bitrate - p.bitrate;
    var u, v := (x - p.size) / (q.size - p.size), (y - p.size) / (q.size - p.size);
    Products(h, u, v);
    assert Line(p, q, x) == p.bitrate + h * u && Line(p, q, y) == p.bitrate + h * v;
  }

  lemma TableRises(i: nat, j: nat)
    requires i <= j <= LAST
    ensures Table(i).bitrate <= Table(j).bitrate && Table(i).size <= Table(j).size
    ensures i < j ==> Table(i).bitrate < Table(j).bitrate && Table(i).size < Table(j).size
  {}

  /** On its segment a bitrate stays between the two points, and reaches the second at its size only. */
  lemma BetweenPoints(size: real, bitrate: real, i: nat)
    requires On(size, i) && bitrate == Line(Table(i), Table(i + 1), size)
    ensures Table(i).bitrate < bitrate <= Table(i + 1).bitrate
    ensures bitrate == Table(i + 1).bitrate <==> size == Table(i + 1).size
  {
    var p, q := Table(i), Table(i + 1);
    TableRises(i, i + 1);
    LineRises(p, q, size, q.size);
    assert Line(p, q, q.size) == q.bitrate;
  }

  lemma OnSegment(size: real, bitrate: real, i: nat)
    requires On(size, i) && bitrate == Line(Table(i), Table(i + 1), size)
    ensures IsBitrateOf(size, bitrate) && 0.0 < bitrate
  {
    forall j: nat | On(size, j) ensures j == i {
      OneSegment(size, i, j);
    }
    BetweenPoints(size, bitrate, i);
    TableRises(0, i);
  }

  lemma OffTable(size: real)
    requires forall j: nat :: !On(size, j)
    ensures IsBitrateOf(size, 64000.0)
  {}

  /** The search of the source: the first segment that holds the size, with -1 for none found so far. */
  method StandardBitrate(width: real, height: real, framerate: real) returns (bitrate: real)
    ensures IsBitrateOf(Size(width, height, framerate), bitrate)
  {
    bitrate := -1.0;
    var def := Size(width, height, framerate);
    var i := 0;
    while i < LAST
      invariant 0 <= i <= LAST
      invariant bitrate == -1.0 && forall j: nat :: On(def, j) ==> j >= i
    {
      var prev, next := Table(i), Table(i + 1);
      if def > prev.size && def <= next.size {
        bitrate := Interpolated(prev, next, def);
        OnSegment(def, bitrate, i);
        break;
      }
      i := i + 1;
    }
    if bitrate == -1.0 {
      OffTable(def);
      bitrate := 64000.0;
    }
  }

  method Interpolated(prev: Point, next: Point, def: real) returns (bitrate: real)
    requires prev.size < next.size
    ensures bitrate == Line(prev, next, def)
  {
    var portion := (def - prev.size) / (next.size - prev.size);
    bitrate := prev.bitrate + (next.bitrate - prev.bitrate) * portion;
  }

  /** At a point of the table the bitrate is the point's own. */
  lemma PointsAreHit(i: nat, bitrate: real)
    requires 0 < i <= LAST && IsBitrateOf(Table(i).size, bitrate)
    ensures bitrate == Table(i).bitrate
  {
    assert On(Table(i).size, i - 1);
    BetweenPoints(Table(i).size, bitrate, i - 1);
  }

  /** The bitrate is positive and at most the top one; only sizes outside the open table range get the top one. */
  lemma BitrateRange(size: real, bitrate: real)
    requires IsBitrateOf(size, bitrate)
    ensures 0.0 < bitrate <= 64000.0
    ensures bitrate == 64000.0 <==> size <= 0.0 || size >= Table(LAST).size
  {
    Covered(size);
    if i: nat :| On(size, i) {
      BetweenPoints(size, bitrate, i);
      TableRises(0, i);
      TableRises(i + 1, LAST);
    }
  }

  lemma SegmentsOrdered(x: real, y: real, i: nat, j: nat)
    requires On(x, i) && On(y, j) && x <= y && i != j
    ensures i < j
  {}

  /** Over positive sizes a larger size never gets a smaller bitrate. */
  lemma BitrateIsMonotone(x: real, y: real, a: real, b: real)
    requires 0.0 < x <= y && IsBitrateOf(x, a) && IsBitrateOf(y, b)
    ensures a <= b
    ensures x < y && x < Table(LAST).size ==> a < b
  {
    Covered(x);
    Covered(y);
    BitrateRange(x, a);
    BitrateRange(y, b);
    if y <= Table(LAST).size {
      var i: nat :| On(x, i);
      var j: nat :| On(y, j);
      if i == j {
        TableRises(i, i + 1);
        LineRises(Table(i), Table(i + 1), x, y);
      } else {
        SegmentsOrdered(x, y, i, j);
        BetweenPoints(x, a, i);
        BetweenPoints(y, b, j);
        TableRises(i + 1, j);
      }
    }
  }

  lemma SizeGrows(w: real, h: real, f: real, w': real, h': real, f': real)
    requires 0.0 < w <= w' && 0.0 < h <= h' && 0.0 < f <= f'
    ensures 0.0 < Size(w, h, f) <= Size(w', h', f')
  {
    Grows(w, w', h, h');
    Grows(w * h, w' * h', f, f');
  }

  /** Growing any of the three factors of a positive video never lowers its bitrate. */
  lemma LargerVideo(w: real, h: real, f: real, w': real, h': real, f': real, a: real, b: real)
    requires 0.0 < w <= w' && 0.0 < h <= h' && 0.0 < f <= f'
    requires IsBitrateOf(Size(w, h, f), a) && IsBitrateOf(Size(w', h', f'), b)
    ensures a <= b
  {
    SizeGrows(w, h, f, w', h', f');
    BitrateIsMonotone(Size(w, h, f), Size(w', h', f'), a, b);
  }

  lemma Grows(x: real, x': real, y: real, y': real)
    requires 0.0 < x <= x' && 0.0 < y <= y'
    ensures 0.0 < x * y <= x' * y'
  {
    assert x * y <= x' * y <= x' * y';
  }

  /** The sizes that the table is made of: well-known resolutions at 30 frames a second, with the bitrates they get. */
  lemma NamedSize(i: nat, width: real, height: real, bitrate: real)
    requires 0 < i <= LAST && Size(width, height, 30.0) == Table(i).size && IsBitrateOf(Size(width, height, 30.0), bitrate)
    ensures bitrate == match i
                       case 1 => 400.0 case 2 => 800.0 case 3 => 2000.0 case 4 => 4000.0 case 5 => 16000.0 case _ => 64000.0
    ensures Table(i).size == match i
                             case 1 => Size(320.0, 240.0, 30.0) case 2 => Size(640.0, 480.0, 30.0)
                             case 3 => Size(1280.0, 720.0, 30.0) case 4 => Size(1920.0, 1080.0, 30.0)
                             case 5 => Size(3840.0, 2160.0, 30.0) case _ => Size(7680.0, 4320.0, 30.0)
  {
    PointsAreHit(i, bitrate);
  }

  datatype Codec = H264 | VP8 | VP9 | H265 | Other

  function Factor(codec: Codec): real {
    match codec
    case VP8 => 1.2
    case VP9 => 0.8
    case H265 => 0.9
    case _ => 1.0
  }

  method CalcDefaultBitrate(codec: Codec, width: real, height: real, framerate: real, motionFactor: real)
    returns (bitrate: real)
    ensures exists standard :: IsBitrateOf(Size(width, height, framerate), standard)
                               && bitrate == standard * Factor(codec) * motionFactor
  {
    var standard := StandardBitrate(width, height, framerate);
    bitrate := standard * Factor(codec) * motionFactor;
  }

  lemma Scales(x: real, y: real, m: real)
    requires x < y && 0.0 < m
    ensures x * m < y * m
  {}

  /** For the same video and a positive motion factor VP9 asks for least, then H.265, then H.264, and VP8 for most. */
  lemma CodecsOrdered(standard: real, motionFactor: real)
    requires 0.0 < standard && 0.0 < motionFactor
    ensures standard * Factor(VP9) * motionFactor < standard * Factor(H265) * motionFactor
            < standard * Factor(H264) * motionFactor < standard * Factor(VP8) * motionFactor
  {
    assert standard * 0.8 < standard * 0.9 < standard * 1.0 < standard * 1.2;
    Scales(standard * 0.8, standard * 0.9, motionFactor);
    Scales(standard * 0.9, standard * 1.0, motionFactor);
    Scales(standard * 1.0, standard * 1.2, motionFactor);
  }
}
