/** The configuration record of the asset generator, what the option loop and
    `compute_params` do to it, the six density buckets, and the asset each
    bucket yields: its output path, its canvas size and, for the boxed
    profiles, where the fitted content is pasted. */
module Android {
  import opened Geometry
  import opened Paths

  /** The icon profile chosen on the command line. */
  datatype Mode = Normal | Launcher | ActionBar | Notification | SmallContextual

  /** One parsed option, in the order the option loop sees it. */
  datatype Opt =
    | InputOpt(path: string)
    | OutputOpt(dir: string)
    | DpiOpt(dpi: int)
    | LauncherOpt
    | ActionBarOpt
    | NotificationOpt
    | SmallContextualOpt

  /** The generator's fields: input path, output root, reference DPI, mode,
      reference size, whether a box is used and its size, output file name and
      directory type. */
  datatype Config = Config(
    input: string,
    output: string,
    dpi: int,
    mode: Mode,
    size: Size,
    useBox: bool,
    box: Size,
    basename: string,
    dirtype: string)

  /** The reference DPI: the default for `-d` and the DPI of every fixed profile. */
  const ReferenceDpi: nat := 640

  /** The record as the constructor leaves it: reference DPI 640, normal
      mode, no box, directory type "drawable", everything else empty. */
  function Defaults(): (r: Config)
    ensures r.dpi == ReferenceDpi && r.mode == Normal && r.dirtype == "drawable"
    ensures !r.useBox && r.size == Size(0, 0) && r.box == Size(0, 0)
    ensures r.input == [] && r.output == [] && r.basename == []
  {
    Config("", "", ReferenceDpi, Normal, Size(0, 0), false, Size(0, 0), "", "drawable")
  }

  predicate IsModeOpt(o: Opt) {
    o.LauncherOpt? || o.ActionBarOpt? || o.NotificationOpt? || o.SmallContextualOpt?
  }

  function ModeOf(o: Opt): Mode
    requires IsModeOpt(o)
  {
    match o
    case LauncherOpt => Launcher
    case ActionBarOpt => ActionBar
    case NotificationOpt => Notification
    case SmallContextualOpt => SmallContextual
  }

  /** One turn of the option loop. Only the launcher flag touches the
      directory type, and nothing ever sets it back. */
  function ApplyOpt(c: Config, o: Opt): (r: Config)
    ensures r.input == if o.InputOpt? then o.path else c.input
    ensures r.output == if o.OutputOpt? then o.dir else c.output
    ensures r.dpi == if o.DpiOpt? then o.dpi else c.dpi
    ensures r.mode == if IsModeOpt(o) then ModeOf(o) else c.mode
    ensures r.dirtype == if o == LauncherOpt then "mipmap" else c.dirtype
    ensures r.size == c.size && r.useBox == c.useBox && r.box == c.box && r.basename == c.basename
  {
    match o
    case InputOpt(p) => c.(input := p)
    case OutputOpt(d) => c.(output := d)
    case DpiOpt(n) => c.(dpi := n)
    case LauncherOpt => c.(mode := Launcher, dirtype := "mipmap")
    case ActionBarOpt => c.(mode := ActionBar)
    case NotificationOpt => c.(mode := Notification)
    case SmallContextualOpt => c.(mode := SmallContextual)
  }

  /** The whole option loop, options taken first to last. It never touches
      the geometry, the box flag or the file name. */
  function ApplyOpts(c: Config, opts: seq<Opt>): (r: Config)
    ensures r.size == c.size && r.useBox == c.useBox && r.box == c.box && r.basename == c.basename
    decreases |opts|
  {
    if opts == [] then c else ApplyOpt(ApplyOpts(c, opts[..|opts| - 1]), opts[|opts| - 1])
  }

  /** The last mode flag decides the mode. */
  lemma {:induction false} LastModeFlagWins(c: Config, opts: seq<Opt>, i: nat)
    requires i < |opts| && IsModeOpt(opts[i])
    requires forall j :: i < j < |opts| ==> !IsModeOpt(opts[j])
    ensures ApplyOpts(c, opts).mode == ModeOf(opts[i])
    decreases |opts|
  {
    var init := opts[..|opts| - 1];
    if i < |opts| - 1 {
      assert init[i] == opts[i];
      LastModeFlagWins(c, init, i);
    }
  }

  /** The last `-d` value is the reference DPI the option loop leaves. */
  lemma {:induction false} LastDpiWins(c: Config, opts: seq<Opt>, i: nat)
    requires i < |opts| && opts[i].DpiOpt?
    requires forall j :: i < j < |opts| ==> !opts[j].DpiOpt?
    ensures ApplyOpts(c, opts).dpi == opts[i].dpi
    decreases |opts|
  {
    var init := opts[..|opts| - 1];
    if i < |opts| - 1 {
      assert init[i] == opts[i];
      LastDpiWins(c, init, i);
    }
  }

  /** Without `-d` the reference DPI stays what it was (640 on a fresh record). */
  lemma {:induction false} NoDpiOptKeepsDpi(c: Config, opts: seq<Opt>)
    requires forall j :: 0 <= j < |opts| ==> !opts[j].DpiOpt?
    ensures ApplyOpts(c, opts).dpi == c.dpi
    decreases |opts|
  {
    if opts != [] {
      NoDpiOptKeepsDpi(c, opts[..|opts| - 1]);
    }
  }

  /** Without a mode flag the mode stays what it was. */
  lemma {:induction false} NoModeFlagKeepsMode(c: Config, opts: seq<Opt>)
    requires forall j :: 0 <= j < |opts| ==> !IsModeOpt(opts[j])
    ensures ApplyOpts(c, opts).mode == c.mode
    decreases |opts|
  {
    if opts != [] {
      NoModeFlagKeepsMode(c, opts[..|opts| - 1]);
    }
  }

  /** The directory type becomes "mipmap" exactly when a launcher flag is given,
      whatever mode flag comes after it. */
  lemma {:induction false} DirtypeFollowsLauncherFlag(c: Config, opts: seq<Opt>)
    ensures ApplyOpts(c, opts).dirtype == if LauncherOpt in opts then "mipmap" else c.dirtype
    decreases |opts|
  {
    if opts != [] {
      var init := opts[..|opts| - 1];
      DirtypeFollowsLauncherFlag(c, init);
      assert opts == init + [opts[|opts| - 1]];
    }
  }

  /** Launcher mode can only come from a launcher flag. */
  lemma {:induction false} LauncherModeNeedsFlag(c: Config, opts: seq<Opt>)
    requires c.mode != Launcher && ApplyOpts(c, opts).mode == Launcher
    ensures LauncherOpt in opts
    decreases |opts|
  {
    var init := opts[..|opts| - 1];
    if opts[|opts| - 1] != LauncherOpt {
      LauncherModeNeedsFlag(c, init);
      assert opts == init + [opts[|opts| - 1]];
    }
  }

  /** A later mode flag overrides `-l` but not the directory type it set. */
  lemma LauncherThenActionBar()
    ensures ApplyOpts(Defaults(), [LauncherOpt, ActionBarOpt]).mode == ActionBar
    ensures ApplyOpts(Defaults(), [LauncherOpt, ActionBarOpt]).dirtype == "mipmap"
  {
    var opts := [LauncherOpt, ActionBarOpt];
    assert opts[..1] == [LauncherOpt];
    assert opts[..1][..0] == [];
  }

  /** For the boxed profiles: the box lies within the reference canvas. */
  predicate BoxInsideCanvas(c: Config) {
    c.useBox ==> c.box.w <= c.size.w && c.box.h <= c.size.h
  }

  /** `compute_params`: the file name becomes the input's base name and the
      size the image's; then each fixed profile overrides DPI, size and, when
      boxed, the box, and launcher also the file name. */
  function Params(c: Config, image: Size): (r: Config)
    ensures r.input == c.input && r.output == c.output && r.mode == c.mode && r.dirtype == c.dirtype
    ensures r.mode == Normal ==> r.dpi == c.dpi && r.size == image && r.useBox == c.useBox && r.box == c.box
    ensures r.mode != Normal ==> r.dpi == ReferenceDpi
    ensures r.basename == if r.mode == Launcher then "ic_launcher.png" else Basename(c.input)
    ensures r.useBox <==> c.useBox || r.mode == ActionBar || r.mode == Notification
    ensures !c.useBox ==> BoxInsideCanvas(r)
  {
    var r := c.(basename := Basename(c.input), size := image);
    match c.mode
    case Normal => r
    case Launcher => r.(basename := "ic_launcher.png", dpi := ReferenceDpi, size := Size(192, 192))
    case ActionBar => r.(dpi := ReferenceDpi, size := Size(128, 128), useBox := true, box := Size(96, 96))
    case Notification => r.(dpi := ReferenceDpi, size := Size(96, 96), useBox := true, box := Size(88, 88))
    case SmallContextual => r.(dpi := ReferenceDpi, size := Size(64, 64))
  }

  /** The fixed profiles, all anchored at the reference DPI whatever `-d` said. */
  lemma ProfileTable(c: Config, image: Size)
    requires !c.useBox
    ensures var r := Params(c, image);
      (r.mode == Launcher ==> r.size == Size(192, 192) && !r.useBox) &&
      (r.mode == ActionBar ==> r.size == Size(128, 128) && r.useBox && r.box == Size(96, 96)) &&
      (r.mode == Notification ==> r.size == Size(96, 96) && r.useBox && r.box == Size(88, 88)) &&
      (r.mode == SmallContextual ==> r.size == Size(64, 64) && !r.useBox) &&
      (r.mode == Normal ==> r.size == image && !r.useBox)
  {
  }

  /** A density bucket: its DPI and the suffix of its directory name. */
  datatype Bucket = Bucket(dpi: nat, suffix: string)

  /** The buckets, in the order the assets are produced. */
  const Buckets: seq<Bucket> := [
    Bucket(640, "xxxhdpi"),
    Bucket(480, "xxhdpi"),
    Bucket(320, "xhdpi"),
    Bucket(240, "hdpi"),
    Bucket(160, "mdpi"),
    Bucket(120, "ldpi")
  ]

  /** Six buckets from the reference DPI down, with distinct suffixes that
      contain no '/' and do not end in one. */
  lemma BucketTable()
    ensures |Buckets| == 6 && Buckets[0].dpi == ReferenceDpi
    ensures forall i, j :: 0 <= i < j < |Buckets| ==> Buckets[i].dpi > Buckets[j].dpi > 0
    ensures forall i, j :: 0 <= i < j < |Buckets| ==> Buckets[i].suffix != Buckets[j].suffix
    ensures forall i :: 0 <= i < |Buckets| ==> Buckets[i].suffix != [] && '/' !in Buckets[i].suffix
  {
  }

  /** `compute_resolution`: each axis of the reference size converted to the
      bucket DPI on its own, rounded down. */
  function Resolution(c: Config, bucketDpi: nat): (r: Size)
    requires c.dpi > 0
    ensures r.w * c.dpi <= c.size.w * bucketDpi < (r.w + 1) * c.dpi
    ensures r.h * c.dpi <= c.size.h * bucketDpi < (r.h + 1) * c.dpi
  {
    Size(Scale(c.size.w, c.dpi, bucketDpi), Scale(c.size.h, c.dpi, bucketDpi))
  }

  /** `compute_box_resolution`: the same conversion applied to the box. */
  function BoxResolution(c: Config, bucketDpi: nat): (r: Size)
    requires c.dpi > 0
    ensures r.w * c.dpi <= c.box.w * bucketDpi < (r.w + 1) * c.dpi
    ensures r.h * c.dpi <= c.box.h * bucketDpi < (r.h + 1) * c.dpi
  {
    Size(Scale(c.box.w, c.dpi, bucketDpi), Scale(c.box.h, c.dpi, bucketDpi))
  }

  /** A box inside the reference canvas stays inside it at every bucket DPI. */
  lemma BoxStaysInside(c: Config, bucketDpi: nat)
    requires c.dpi > 0
    ensures c.useBox && BoxInsideCanvas(c) ==>
      BoxResolution(c, bucketDpi).w <= Resolution(c, bucketDpi).w &&
      BoxResolution(c, bucketDpi).h <= Resolution(c, bucketDpi).h
  {
    if c.useBox && BoxInsideCanvas(c) {
      ScaleMonotone(c.box.w, c.size.w, c.dpi, bucketDpi);
      ScaleMonotone(c.box.h, c.size.h, c.dpi, bucketDpi);
    }
  }

  /** A name built from two '/'-free parts around a '-' is '/'-free. */
  lemma DashedNameHasNoSlash(t: string, u: string)
    requires '/' !in t && '/' !in u
    ensures '/' !in t + "-" + u
  {
    var d := t + "-" + u;
    assert forall k :: 0 <= k < |d| ==> d[k] in t || d[k] == '-' || d[k] in u;
  }

  /** `<output>/<dirtype>-<suffix>`, the directory of one bucket; its last
      component is `<dirtype>-<suffix>`. */
  function OutputDir(c: Config, b: Bucket): (r: string)
    ensures '/' !in c.dirtype && '/' !in b.suffix ==> Basename(r) == c.dirtype + "-" + b.suffix
  {
    var d := c.dirtype + "-" + b.suffix;
    var r := Join(c.output, d);
    if '/' !in c.dirtype && '/' !in b.suffix then
      DashedNameHasNoSlash(c.dirtype, b.suffix);
      BasenameOfJoin(c.output, d);
      r
    else r
  }

  /** `<output>/<dirtype>-<suffix>/<basename>`, the file of one bucket; its
      last component is the configured file name. */
  function OutputPath(c: Config, b: Bucket): (r: string)
    ensures '/' !in c.basename ==> Basename(r) == c.basename
  {
    var r := Join(OutputDir(c, b), c.basename);
    if '/' !in c.basename then
      BasenameOfJoin(OutputDir(c, b), c.basename);
      r
    else r
  }

  /** How the content is laid on the canvas: resized to the whole canvas, or
      fitted into the box and pasted at an offset on a transparent canvas. */
  datatype Placement = Direct | Boxed(fitted: Size, offset: Offset)

  /** What one bucket produces: its DPI, the file written, and the image's size and layout. */
  datatype Asset = Asset(dpi: nat, path: string, canvas: Size, placement: Placement)

  /** The pasted content lies wholly on the canvas. */
  predicate PlacedInside(a: Asset) {
    a.placement.Boxed? ==>
      0 <= a.placement.offset.dx && a.placement.offset.dx + a.placement.fitted.w <= a.canvas.w &&
      0 <= a.placement.offset.dy && a.placement.offset.dy + a.placement.fitted.h <= a.canvas.h
  }

  /** `scale_image`: the asset of one bucket, for a source whose cropped
      content has size `crop`. */
  function AssetFor(c: Config, b: Bucket, crop: Size): (a: Asset)
    requires c.dpi > 0 && crop.w > 0 && crop.h > 0
    ensures a.dpi == b.dpi && a.path == OutputPath(c, b)
    ensures a.canvas == Resolution(c, b.dpi)
    ensures a.placement.Boxed? <==> c.useBox
    ensures a.placement.Boxed? ==>
      a.placement.fitted == Fit(BoxResolution(c, b.dpi), crop) &&
      a.placement.offset == CenterOffset(a.canvas, a.placement.fitted)
    ensures a.placement.Boxed? ==>
      a.placement.fitted.w <= BoxResolution(c, b.dpi).w && a.placement.fitted.h <= BoxResolution(c, b.dpi).h
    ensures BoxInsideCanvas(c) ==> PlacedInside(a)
  {
    var canvas := Resolution(c, b.dpi);
    if c.useBox then
      var fitted := Fit(BoxResolution(c, b.dpi), crop);
      BoxStaysInside(c, b.dpi);
      Asset(b.dpi, OutputPath(c, b), canvas, Boxed(fitted, CenterOffset(canvas, fitted)))
    else
      Asset(b.dpi, OutputPath(c, b), canvas, Direct)
  }

  /** `scale_images`: one asset per bucket, in table order. */
  function Assets(c: Config, crop: Size): (r: seq<Asset>)
    requires c.dpi > 0 && crop.w > 0 && crop.h > 0
    ensures |r| == |Buckets|
    ensures forall i :: 0 <= i < |r| ==> r[i].dpi == Buckets[i].dpi && r[i].path == OutputPath(c, Buckets[i])
    ensures forall i :: 0 <= i < |r| ==> r[i].canvas == Resolution(c, Buckets[i].dpi)
    ensures forall i :: 0 <= i < |r| ==> (r[i].placement.Boxed? <==> c.useBox)
    ensures forall i :: 0 <= i < |r| ==> r[i].placement.Boxed? ==>
      r[i].placement.fitted == Fit(BoxResolution(c, Buckets[i].dpi), crop) &&
      r[i].placement.offset == CenterOffset(r[i].canvas, r[i].placement.fitted)
    ensures BoxInsideCanvas(c) ==> forall i :: 0 <= i < |r| ==> PlacedInside(r[i])
  {
    seq(|Buckets|, i requires 0 <= i < |Buckets| => AssetFor(c, Buckets[i], crop))
  }

  lemma CancelAround(h: string, s1: string, s2: string, t: string)
    requires h + s1 + t == h + s2 + t
    ensures s1 == s2
  {
    assert |s1| == |s2|;
    assert s1 == (h + s1 + t)[|h|..|h| + |s1|];
    assert s2 == (h + s2 + t)[|h|..|h| + |s2|];
  }

  /** The output file of a bucket whose directory suffix is `s`. */
  lemma PathOfSuffix(c: Config, s: string)
    requires '/' !in c.basename && !IsAbsolute(c.dirtype)
    requires s != [] && '/' !in s
    ensures Join(Join(c.output, c.dirtype + "-" + s), c.basename) ==
            Join(c.output, c.dirtype + "-") + s + ("/" + c.basename)
  {
    var u := c.dirtype + "-";
    assert !IsAbsolute(u) by {
      if c.dirtype == [] { assert u[0] == '-'; } else { assert u[0] == c.dirtype[0]; }
    }
    JoinAppend(c.output, u, s);
    var x := Join(c.output, u) + s;
    assert x[|x| - 1] == s[|s| - 1];
    assert !IsAbsolute(c.basename) by {
      if c.basename != [] { assert c.basename[0] in c.basename; }
    }
    JoinRelative(x, c.basename);
  }

  lemma DistinctOutputPaths(c: Config, i: nat, j: nat)
    requires i < j < |Buckets|
    requires '/' !in c.basename && !IsAbsolute(c.dirtype)
    ensures OutputPath(c, Buckets[i]) != OutputPath(c, Buckets[j])
  {
    BucketTable();
    var s1, s2 := Buckets[i].suffix, Buckets[j].suffix;
    PathOfSuffix(c, s1);
    PathOfSuffix(c, s2);
    if OutputPath(c, Buckets[i]) == OutputPath(c, Buckets[j]) {
      CancelAround(Join(c.output, c.dirtype + "-"), s1, s2, "/" + c.basename);
    }
  }

  /** The reference DPI is usable: fixed profiles replace it, so only normal
      mode needs a positive `-d`. */
  predicate DpiUsable(c: Config) {
    c.mode != Normal || c.dpi > 0
  }

  /** The whole run: the option loop on a fresh record, `compute_params` with
      the image's size, then one asset per bucket. */
  function Generate(opts: seq<Opt>, image: Size, crop: Size): (r: seq<Asset>)
    requires DpiUsable(ApplyOpts(Defaults(), opts)) && crop.w > 0 && crop.h > 0
    ensures |r| == 6
    ensures forall i :: 0 <= i < |r| ==> PlacedInside(r[i])
    ensures forall i, j :: 0 <= i < j < |r| ==> r[i].path != r[j].path
  {
    var c := ApplyOpts(Defaults(), opts);
    DirtypeFollowsLauncherFlag(Defaults(), opts);
    BasenameHasNoSlash(c.input);
    var p := Params(c, image);
    var r := Assets(p, crop);
    assert forall i, j :: 0 <= i < j < |r| ==> r[i].path != r[j].path by {
      forall i, j | 0 <= i < j < |r| ensures r[i].path != r[j].path {
        DistinctOutputPaths(p, i, j);
      }
    }
    r
  }

  /** The launcher icon's side at each bucket, xxxhdpi down to ldpi. */
  const LauncherIconSides: seq<nat> := [192, 144, 96, 72, 48, 36]

  /** The launcher icon's side at each bucket is 192 converted to its DPI. */
  lemma LauncherSides()
    ensures forall i :: 0 <= i < 6 ==> Scale(192, 640, Buckets[i].dpi) == LauncherIconSides[i]
  {
  }

  /** The asset of one bucket for a launcher record. */
  lemma LauncherBucket(p: Config, b: Bucket, crop: Size)
    requires p.dpi == 640 && p.size == Size(192, 192) && !p.useBox && crop.w > 0 && crop.h > 0
    requires p.dirtype == "mipmap" && p.basename == "ic_launcher.png"
    ensures var a := AssetFor(p, b, crop);
      a.canvas == Size(Scale(192, 640, b.dpi), Scale(192, 640, b.dpi)) && a.placement == Direct &&
      a.path == Join(Join(p.output, "mipmap-" + b.suffix), "ic_launcher.png")
  {
    var a := AssetFor(p, b, crop);
    assert a.placement == Direct;
    assert a.canvas == Size(Scale(192, 640, b.dpi), Scale(192, 640, b.dpi));
    assert p.dirtype + "-" + b.suffix == "mipmap-" + b.suffix;
    assert OutputDir(p, b) == Join(p.output, "mipmap-" + b.suffix);
    assert a.path == Join(OutputDir(p, b), "ic_launcher.png");
  }

  /** The six assets of a launcher record. */
  lemma LauncherRecordAssets(p: Config, crop: Size)
    requires p.dpi == 640 && p.size == Size(192, 192) && !p.useBox && crop.w > 0 && crop.h > 0
    requires p.dirtype == "mipmap" && p.basename == "ic_launcher.png"
    ensures var r := Assets(p, crop);
      forall i :: 0 <= i < 6 ==>
        r[i].canvas == Size(LauncherIconSides[i], LauncherIconSides[i]) && r[i].placement == Direct &&
        r[i].path == Join(Join(p.output, "mipmap-" + Buckets[i].suffix), "ic_launcher.png")
  {
    var r := Assets(p, crop);
    LauncherSides();
    forall i | 0 <= i < 6
      ensures r[i].canvas == Size(LauncherIconSides[i], LauncherIconSides[i])
      ensures r[i].placement == Direct
      ensures r[i].path == Join(Join(p.output, "mipmap-" + Buckets[i].suffix), "ic_launcher.png")
    {
      assert r[i] == AssetFor(p, Buckets[i], crop);
      LauncherBucket(p, Buckets[i], crop);
    }
  }

  /** Launcher mode: six square icons named ic_launcher.png under
      mipmap-<suffix>, 192 pixels at the reference DPI down to 36 at ldpi. */
  lemma LauncherAssets(opts: seq<Opt>, image: Size, crop: Size)
    requires ApplyOpts(Defaults(), opts).mode == Launcher && crop.w > 0 && crop.h > 0
    ensures var r := Generate(opts, image, crop);
      forall i :: 0 <= i < 6 ==>
        r[i].canvas == Size(LauncherIconSides[i], LauncherIconSides[i]) && r[i].placement == Direct &&
        r[i].path == Join(Join(ApplyOpts(Defaults(), opts).output, "mipmap-" + Buckets[i].suffix), "ic_launcher.png")
  {
    var c := ApplyOpts(Defaults(), opts);
    LauncherModeNeedsFlag(Defaults(), opts);
    DirtypeFollowsLauncherFlag(Defaults(), opts);
    var p := Params(c, image);
    assert p.dpi == 640 && p.size == Size(192, 192) && !p.useBox;
    assert p.dirtype == "mipmap" && p.basename == "ic_launcher.png" && p.output == c.output;
    assert Generate(opts, image, crop) == Assets(p, crop);
    LauncherRecordAssets(p, crop);
  }

  /** Action bar at xhdpi: a 64×64 canvas and a 48×48 box; square content fills
      the box and sits 8 pixels in from the left and top. */
  lemma ActionBarAtXhdpi(c: Config, image: Size, n: nat)
    requires c.mode == ActionBar && n > 0
    ensures var a := AssetFor(Params(c, image), Buckets[2], Size(n, n));
      a.dpi == 320 && a.canvas == Size(64, 64) && a.placement == Boxed(Size(48, 48), Offset(8, 8))
  {
    var p := Params(c, image);
    assert p.dpi == 640 && p.size == Size(128, 128) && p.useBox && p.box == Size(96, 96);
    assert Resolution(p, 320) == Size(64, 64);
    assert BoxResolution(p, 320) == Size(48, 48);
    FitSquare(Size(48, 48), n);
    assert CenterOffset(Size(64, 64), Size(48, 48)) == Offset(8, 8);
  }
}
