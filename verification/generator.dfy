/** The generator object: its fields are the configuration record, filled in
    by the option loop and by `compute_params`, and read by each per-bucket
    step. Each method is proved against the function of module Android that
    says what it does. */
module Generator {
  import opened Geometry
  import opened Paths
  import opened Android

  class AndroidImage {
    var input: string
    var output: string
    var dpi: int
    var mode: Mode
    var x: nat
    var y: nat
    var useBox: bool
    var boxX: nat
    var boxY: nat
    var basename: string
    var dirtype: string

    /** The fields as one configuration record. */
    function Snapshot(): Config
      reads this
    {
      Config(input, output, dpi, mode, Size(x, y), useBox, Size(boxX, boxY), basename, dirtype)
    }

    /** `__init__`: default DPI 640, normal mode, no box, directory type "drawable". */
    constructor ()
      ensures Snapshot() == Defaults()
    {
      input, output := "", "";
      dpi := ReferenceDpi;
      mode := Normal;
      x, y := 0, 0;
      useBox := false;
      boxX, boxY := 0, 0;
      basename := "";
      dirtype := "drawable";
    }

    /** The option loop of `check_opt`, on options already parsed. */
    method CheckOpt(opts: seq<Opt>)
      modifies this
      ensures Snapshot() == ApplyOpts(old(Snapshot()), opts)
    {
      for i := 0 to |opts|
        invariant Snapshot() == ApplyOpts(old(Snapshot()), opts[..i])
      {
        assert opts[..i + 1][..i] == opts[..i];
        match opts[i]
        case InputOpt(p) => input := p;
        case OutputOpt(d) => output := d;
        case DpiOpt(n) => dpi := n;
        case LauncherOpt =>
          mode := Launcher;
          dirtype := "mipmap";
        case ActionBarOpt => mode := ActionBar;
        case NotificationOpt => mode := Notification;
        case SmallContextualOpt => mode := SmallContextual;
      }
      assert opts[..|opts|] == opts;
    }

    /** `compute_params`, given the size of the opened image. */
    method ComputeParams(image: Size)
      modifies this
      ensures Snapshot() == Params(old(Snapshot()), image)
    {
      ghost var c0 := Snapshot();
      basename := Basename(input);
      x, y := image.w, image.h;
      assert Snapshot() == c0.(basename := Basename(c0.input), size := image);
      if mode == Launcher {
        basename := "ic_launcher.png";
        dpi := ReferenceDpi;
        x, y := 192, 192;
        assert Snapshot() == Params(c0, image);
      } else if mode == ActionBar {
        dpi := ReferenceDpi;
        x, y := 128, 128;
        useBox := true;
        boxX, boxY := 96, 96;
        assert Snapshot() == Params(c0, image);
      } else if mode == Notification {
        dpi := ReferenceDpi;
        x, y := 96, 96;
        useBox := true;
        boxX, boxY := 88, 88;
        assert Snapshot() == Params(c0, image);
      } else if mode == SmallContextual {
        dpi := ReferenceDpi;
        x, y := 64, 64;
        assert Snapshot() == Params(c0, image);
      }
    }

    /** `scale_image` for one bucket: the output path, the target size and,
        when boxed, the fitted size of the cropped content and its offset. */
    method ScaleImage(bucketDpi: nat, suffix: string, crop: Size) returns (a: Asset)
      requires dpi > 0 && crop.w > 0 && crop.h > 0
      ensures a == AssetFor(Snapshot(), Bucket(bucketDpi, suffix), crop)
      ensures a.canvas == Resolution(Snapshot(), bucketDpi)
      ensures useBox && BoxInsideCanvas(Snapshot()) ==> PlacedInside(a)
    {
      var dir := Join(output, dirtype + "-" + suffix);
      var path := Join(dir, basename);
      var target := Size(Scale(x, dpi, bucketDpi), Scale(y, dpi, bucketDpi));
      if useBox {
        var box := Size(Scale(boxX, dpi, bucketDpi), Scale(boxY, dpi, bucketDpi));
        var fitted := Fit(box, crop);
        a := Asset(bucketDpi, path, target, Boxed(fitted, CenterOffset(target, fitted)));
      } else {
        a := Asset(bucketDpi, path, target, Direct);
      }
    }

    /** `scale_images`: the six buckets, from xxxhdpi down to ldpi. */
    method ScaleImages(crop: Size) returns (assets: seq<Asset>)
      requires dpi > 0 && crop.w > 0 && crop.h > 0
      ensures assets == Assets(Snapshot(), crop)
    {
      var a0 := ScaleImage(640, "xxxhdpi", crop);
      var a1 := ScaleImage(480, "xxhdpi", crop);
      var a2 := ScaleImage(320, "xhdpi", crop);
      var a3 := ScaleImage(240, "hdpi", crop);
      var a4 := ScaleImage(160, "mdpi", crop);
      var a5 := ScaleImage(120, "ldpi", crop);
      assets := [a0, a1, a2, a3, a4, a5];
    }
  }

  /** `main` on a fresh object: the option loop, `compute_params` on the
      image's size, then the six buckets. */
  method RunTool(opts: seq<Opt>, image: Size, crop: Size) returns (assets: seq<Asset>)
    requires DpiUsable(ApplyOpts(Defaults(), opts)) && crop.w > 0 && crop.h > 0
    ensures assets == Generate(opts, image, crop)
    ensures |assets| == 6 && forall i :: 0 <= i < 6 ==> PlacedInside(assets[i])
  {
    var tool := new AndroidImage();
    tool.CheckOpt(opts);
    tool.ComputeParams(image);
    assets := tool.ScaleImages(crop);
  }
}
