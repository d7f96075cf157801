# pyandroidimage: density-bucket asset sizing, in Dafny

`pyandroidimage.py` turns one source image into the six PNG assets an Android
app needs, one per density bucket (xxxhdpi down to ldpi). The user picks a
profile. It is either normal (the image's own size at a chosen reference DPI)
or one of four fixed icon profiles: launcher, action bar, notification and
small contextual. The object `PyAndroidImage` keeps its configuration in
instance fields. The option loop and `compute_params` fill those fields in.
Then `scale_images` calls `scale_image` once per bucket. Each call converts
the reference size to the bucket's DPI. For the action-bar and notification
profiles, it also fits the image's cropped content into a scaled box and
centres it on a transparent canvas of the target size. The output file goes
to `<output>/<dirtype>-<suffix>/<basename>`.

This project models that sizing and placement logic:

- `geometry.dfy` (module `Geometry`) holds the integer arithmetic. `Scale`
  converts a reference dimension to a bucket DPI, rounding down. `Fit` is
  the long-axis box fit. `HalfTowardZero` and `CenterOffset` give the
  centring offset, truncated toward zero as Python's `int()` does.
- `paths.dfy` (module `Paths`) holds `os.path.basename` and two-argument
  `os.path.join`, with the POSIX rules.
- `android.dfy` (module `Android`) holds the pure model:
  - the configuration record `Config` and its defaults;
  - the option loop as a fold over parsed options (`ApplyOpts`);
  - `compute_params` (`Params`);
  - the bucket table;
  - the asset each bucket yields (`AssetFor`), the six of them (`Assets`),
    and the whole run (`Generate`);
  - the lemmas about all of these.
- `generator.dfy` (module `Generator`) holds the class `AndroidImage`. Its
  fields are the Python object's fields, and its methods update them step by
  step as the source does. Each method is proved against the matching
  function of `Android`. `RunTool` is `main` on a fresh object.

The image library is not modelled. The image's size (`Image.open(...).size`)
and the size of its cropped content (`image.crop(image.getbbox()).size`) enter
as parameters. Resize, paste and save show up only through the sizes and
offsets they would be given. An `Asset` records the bucket DPI, the output
path, the canvas size and either `Direct` (resize to the canvas) or
`Boxed(fitted, offset)`.

Three behaviours of the code are worth noting:
- The code does not force a `.png` extension on the output name. Only
  launcher mode renames the output, to `ic_launcher.png`.
- The code does not reject an empty bounding box: `getbbox()` then returns
  `None` and `crop(None)` keeps the whole image, so the crop size is the
  image's own size (pyandroidimage.py:151-153). Nor does it reject a
  zero-sized target or fitted size: `resize` refuses a zero dimension, so
  the run stops at that bucket. The model returns the asset with the zero
  dimension instead (see "Left out").
- The code never resets the directory type. With `-l` followed by another
  mode flag, the mode is the later one but the directory type stays
  `mipmap` (`Android.LauncherThenActionBar`). So "launcher mode and only
  launcher mode uses mipmap" holds unless `-l` is followed by another mode
  flag (`-a -l` gives launcher mode with `mipmap`).
  `Android.DirtypeFollowsLauncherFlag` states the exact rule.

## Model

| member | source | states |
|---|---|---|
| `Geometry.Scale` | pyandroidimage.py:170-178 | the converted dimension r is the floor of ref·dpi/refDpi: r·refDpi ≤ ref·dpi < (r+1)·refDpi |
| `Geometry.ScaleMonotone` | pyandroidimage.py:170-178 | a larger reference dimension never converts to a smaller one at the same DPIs |
| `Geometry.ScaleShrinks` | pyandroidimage.py:155-157 | converting to a DPI no higher than the reference never enlarges |
| `Geometry.ScaleAtReference` | pyandroidimage.py:170-172 | at the reference DPI itself (the xxxhdpi bucket, 640) the reference dimension is returned unchanged |
| `Geometry.Fit` | pyandroidimage.py:153-157 | wide or square content gets the box width and floor(boxH·bbY/bbX); tall content gets the box height and floor(boxW·bbX/bbY); the result never exceeds the box on either axis |
| `Geometry.FitSquare` | pyandroidimage.py:154-155 | square content fills the whole box |
| `Geometry.FitExamples` | pyandroidimage.py:154-157 | a 100×50 content in a 90×90 box fits to 90×45, and a 50×100 content fits to 45×90 |
| `Geometry.HalfTowardZero` | pyandroidimage.py:161 | `int(float(d)/2)` truncates toward zero: for d ≥ 0, 2r ≤ d ≤ 2r+1; for d < 0, 2r−1 ≤ d ≤ 2r |
| `Geometry.CenterOffset` | pyandroidimage.py:160-163 | when the content fits, the offset is non-negative, the content ends inside the canvas, and the trailing margin is the leading margin or one more; for oversized content it is the truncated negative half |
| `Paths.Basename` | pyandroidimage.py:101 | the base name is no longer than the path |
| `Paths.BasenameIsLastComponent` | pyandroidimage.py:101 | the base name is the suffix of the path after its last '/': it holds no '/', and it is either the whole path or preceded by a '/' |
| `Paths.BasenameHasNoSlash` | pyandroidimage.py:101 | a base name never holds a '/' |
| `Paths.Join` | pyandroidimage.py:142-143 | an absolute component replaces the directory; otherwise the directory is kept as a prefix and the component becomes a separate last component, with a '/' inserted exactly when the directory is non-empty and does not already end in '/' |
| `Paths.BasenameOfJoin` | pyandroidimage.py:142-143 | the last component of a joined path is the component that was joined |
| `Android.Defaults` | pyandroidimage.py:44-59 | the starting record has reference DPI 640, normal mode, no box, directory type "drawable", and empty input, output, file name, size and box |
| `Android.ApplyOpt` | pyandroidimage.py:72-90 | one option changes only its own field: `-i` the input, `-o` the output, `-d` the DPI, a mode flag the mode, and `-l` also the directory type (to "mipmap"); every other field, the geometry included, is kept |
| `Android.ApplyOpts` | pyandroidimage.py:72-90 | the option loop never touches the size, the box flag, the box or the file name |
| `Android.LastDpiWins` | pyandroidimage.py:80-81 | the last `-d` among the options decides the reference DPI |
| `Android.NoDpiOptKeepsDpi` | pyandroidimage.py:47-81 | with no `-d` the reference DPI stays as it was (640, by default) |
| `Android.LastModeFlagWins` | pyandroidimage.py:82-90 | the last mode flag among the options decides the mode |
| `Android.NoModeFlagKeepsMode` | pyandroidimage.py:72-90 | with no mode flag the mode stays as it was (normal, by default) |
| `Android.DirtypeFollowsLauncherFlag` | pyandroidimage.py:82-84 | the directory type is "mipmap" exactly when a launcher flag appears among the options, and otherwise keeps its previous value |
| `Android.LauncherModeNeedsFlag` | pyandroidimage.py:82-84 | launcher mode can only come from a launcher flag |
| `Android.LauncherThenActionBar` | pyandroidimage.py:82-86 | `-l -a` gives action-bar mode with the "mipmap" directory type |
| `Android.Params` | pyandroidimage.py:100-131 | compute_params keeps the input, the output, the mode and the directory type; normal mode keeps the user's DPI and takes the image's size; every fixed mode forces DPI 640; the file name is ic_launcher.png in launcher mode and the input's base name otherwise; the box is used exactly for action bar and notification, and then lies inside the canvas |
| `Android.ProfileTable` | pyandroidimage.py:105-131 | launcher is 192×192 with no box; action bar is 128×128 with a 96×96 box; notification is 96×96 with an 88×88 box; small contextual is 64×64 with no box; normal is the image's size with no box |
| `Android.BucketTable` | pyandroidimage.py:133-139 | there are six buckets starting at 640 DPI, with strictly decreasing positive DPIs and distinct non-empty suffixes without '/' |
| `Android.Resolution` | pyandroidimage.py:170-173 | each axis of the target size is the floor of reference·bucketDpi/referenceDpi, computed on its own |
| `Android.BoxResolution` | pyandroidimage.py:175-178 | each axis of the scaled box is the floor of box·bucketDpi/referenceDpi, computed on its own |
| `Android.BoxStaysInside` | pyandroidimage.py:175-178 | a box inside the reference canvas stays inside the target canvas at every bucket DPI |
| `Android.OutputDir` | pyandroidimage.py:142 | the directory of a bucket has `<dirtype>-<suffix>` as its last component |
| `Android.OutputPath` | pyandroidimage.py:142-143 | the file written for a bucket has the configured file name as its last component |
| `Android.PathOfSuffix` | pyandroidimage.py:142-143 | the output file of a bucket is the output directory joined with `<dirtype>-`, then the bucket's suffix, then "/" and the file name, so paths differ exactly where suffixes do |
| `Android.AssetFor` | pyandroidimage.py:141-168 | the asset of a bucket has the bucket's DPI and the path output/dirtype-suffix/basename; its image has the target size in both paths; it is boxed exactly when the box is used, and then the content is the crop fitted (`Geometry.Fit`) into the box scaled to the bucket and pasted at the offset that centres it on the canvas (`Geometry.CenterOffset`); the fitted content lies within the scaled box, and it lies wholly on the canvas when the box fits the reference canvas |
| `Android.Assets` | pyandroidimage.py:133-139 | scale_images yields one asset per bucket, in table order, each with its bucket's path and target size, each boxed exactly when the box is used and then holding the crop fitted into that bucket's scaled box and centred on the canvas, all placed inside their canvas when the box fits |
| `Android.DistinctOutputPaths` | pyandroidimage.py:133-143 | no two buckets write to the same file |
| `Android.Generate` | pyandroidimage.py:189-193 | a whole run yields six assets, each placed wholly on its canvas, with pairwise distinct paths |
| `Android.LauncherAssets` | pyandroidimage.py:105-110 | in launcher mode the six assets are square with sides 192, 144, 96, 72, 48 and 36, resized directly, and named ic_launcher.png under mipmap-suffix |
| `Android.ActionBarAtXhdpi` | pyandroidimage.py:111-118 | action bar at 320 DPI has a 64×64 canvas and a 48×48 box; square content fits to 48×48 at offset (8, 8) |
| `Generator.AndroidImage.constructor` | pyandroidimage.py:44-59 | a new object holds the default configuration: DPI 640, normal mode, no box, directory type "drawable" |
| `Generator.AndroidImage.CheckOpt` | pyandroidimage.py:72-90 | the fields after the option loop are the fold of the options over the fields before it |
| `Generator.AndroidImage.ComputeParams` | pyandroidimage.py:100-131 | the fields after compute_params are `Android.Params` of the fields before it and the image's size |
| `Generator.AndroidImage.ScaleImage` | pyandroidimage.py:141-168 | scale_image yields the asset `Android.AssetFor` specifies for its bucket; its image has the target size, and boxed content lies on the canvas |
| `Generator.AndroidImage.ScaleImages` | pyandroidimage.py:133-139 | the six calls yield exactly `Android.Assets` of the configuration, in bucket order |
| `Generator.RunTool` | pyandroidimage.py:189-198 | main on a fresh object yields `Android.Generate` of the options, the image size and the crop size: six assets, all placed inside their canvas |

## Left out

- Command-line parsing is not modelled (pyandroidimage.py:61-70). This covers `getopt`, the usage text, `-h` and its exit, and exit code 1 on a parse error. The option loop starts from options already parsed. A `-d` value that is not an integer (a `ValueError` in `int()`) is not modelled either.
- The input-file and output-directory checks and their exit code 2 are not modelled (pyandroidimage.py:92-98). Neither is directory creation with mode 0o755 (pyandroidimage.py:12-14, 144). These are file-system side effects.
- The image library is not modelled: `Image.open`, `getbbox`, `crop`, `resize`, `Image.new`, `paste`, `save`. The image size and the cropped content size are parameters. The crop size is taken to be positive: it is the size of the bounding box, or of the whole image when the bounding box is empty.
- Progress printing (`image_desctiption`, `display_description`) is not modelled.
- The `_aspect` field is not modelled, because nothing reads it.
- Paths.Basename: its own contract only bounds the length; the full statement (the suffix after the last '/') is `Paths.BasenameIsLastComponent`, kept apart because every path proof would otherwise unfold it.
- Geometry.Scale: computes the exact floor of ref·dpi/refDpi. The source computes `(float(ref) / refDpi) * dpi` in IEEE-754 doubles and truncates. When the exact quotient is a whole number and the double result falls just short of it, the source gives exactly one less than the model. This happens on ordinary inputs: a 164-pixel side at 640 DPI converted to 480 DPI is 123 here, but `int((164.0 / 640) * 480)` is 122. For image-sized operands, a quotient that is not a whole number lies too far from the next integer for the double error to cross it, so the source never gives more than the model. `Android.Resolution`, `Android.BoxResolution` and `Android.AssetFor` inherit this gap. The fixed-profile sizes (192, 128, 96 and 64, and the boxes 96 and 88) agree with the source at all six buckets.
- Geometry.Fit: computes the exact floor of box·bb/bb'. The source computes `float(box) / (float(bb) / bb')` in doubles and truncates. As with `Scale`, it gives exactly one less than the model when the exact quotient is a whole number that the double result falls just short of, and never more. Example: an 18-pixel box (the action-bar box at ldpi) and a 900×700 crop fit to a short side of 14 here, but `int(18.0 / (900.0 / 700))` is 13. `Android.AssetFor` inherits this gap.
- Android.AssetFor: can yield an asset with a zero dimension: a zero-sized target, or in a boxed mode a crop so elongated that its fitted short axis rounds down to 0. The source hands such a size to the image library's `resize`, which refuses it, so the run stops at that bucket. The model does not model that failure; it returns the asset with the zero dimension.
- Generator.AndroidImage.ScaleImages: requires a positive reference DPI. A `-d 0` in normal mode raises `ZeroDivisionError` in the source, and a negative `-d` gives negative sizes that the image library rejects. Neither failure is modelled. `Android.DpiUsable` states the condition for a whole run: fixed profiles always use 640.
- Integer widths do not arise: Python integers are unbounded, and so are Dafny's.
