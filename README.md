# Frame scoring of the XIAO ESP32-S3 camera server

The camera server in `ESP32S3_XIAO/src/app_httpd.cpp` holds four scoring
routines. Each works on a camera frame (`camera_fb_t`): a row-major buffer of
8-bit luma samples, with pixel (x, y) at `buf[y * width + x]`.

- `calculate_gradient` computes the central-difference gradient at one pixel.
- `calculate_weighted_sharpness` takes a 5-point Laplacian on a coarse grid
  over the central half of the frame. The grid steps by `width / 20` and
  `height / 15`. Each sample is weighted 1.0 inside the central third and
  0.5 outside it, and the score is the weighted mean.
- `calculate_text_sharpness` visits every fifth pixel of the central two
  thirds. There it takes the Sobel gradient magnitude, scaled by
  `0.3 + 0.7 * contrast`, where contrast is the max-min range of the 3x3
  window divided by 255. The score is the mean.
- `calculate_image_quality` visits every tenth pixel of the central 40%.
  There it blends three measures: the contrast with the right and lower
  neighbours, the central-difference edge strength, and the square root of
  the 3x3 window's variance. The score is the mean.

The model is split into these modules:

- `Frames` holds the frame, the byte and `size_t` types, and the stencil
  bounds.
- `Sampling` holds the `for (v = start; v < end; v += step)` grids.
- `Window` holds the 3x3 window and the `max_val`/`min_val` and
  `local_mean`/`local_var` loops.
- `Sums` holds the running totals.
- `Gradient`, `Sharpness`, `TextSharpness` and `Quality` hold one scorer
  each.

The scorers are methods with the C code's loops. Each is proved against a
function that states the score. Lemmas about those functions prove:

- the bounds of each stencil;
- that a uniform frame scores 0;
- exactly when a score is 0;
- the number of samples;
- when every read stays inside the buffer.

`sqrt` is a parameter of the model. The proofs assume only two things about
it: on a non-negative argument it is non-negative, and it is 0 exactly when
its argument is 0.

`Sharpness.FixedSharpnessRegion` raises both weighted-sharpness strides to
at least 1 for the checked scorer. The C code divides without that floor,
and the model of the C code follows it.

## Model

| member | source | states |
|---|---|---|
| Frames.Wrap | ESP32S3_XIAO/src/app_httpd.cpp:39 | `size_t` products such as `width * 3` never exceed the true product, and equal it when it fits in 32 bits |
| Frames.MagnitudeZeroIff | ESP32S3_XIAO/src/app_httpd.cpp:97 | `sqrt(gx*gx + gy*gy)` is non-negative, and 0 exactly when gx and gy are both 0 |
| Gradient.HalfDifference | ESP32S3_XIAO/src/app_httpd.cpp:19-20 | each of dx and dy lies in [0, 127.5], and is 0 exactly when the two neighbours are equal |
| Gradient.HalvesZeroIff | ESP32S3_XIAO/src/app_httpd.cpp:19-21 | `dx*dx + dy*dy` is non-negative, and 0 exactly when both absolute differences are 0 |
| Gradient.CalculateGradient | ESP32S3_XIAO/src/app_httpd.cpp:17-22 | for a square root, the gradient is non-negative, and 0 exactly when left equals right and above equals below |
| Sampling.Axis | ESP32S3_XIAO/src/app_httpd.cpp:43-44 | every value the loop variable takes lies in [start, end) |
| Sampling.AxisNext | ESP32S3_XIAO/src/app_httpd.cpp:43-44 | each value after the first is the previous one plus the step, and the loop goes on exactly while that stays below end |
| Sampling.AxisMembers | ESP32S3_XIAO/src/app_httpd.cpp:43-44 | v is visited exactly when start <= v < end and v - start is a whole number of steps |
| Sampling.AxisLength | ESP32S3_XIAO/src/app_httpd.cpp:43-44 | the loop body runs ceil((end - start) / step) times, or never when start >= end |
| Sampling.InteriorIsSafe | ESP32S3_XIAO/src/app_httpd.cpp:45-50 | a grid kept one pixel from every edge reads only inside a buffer of width * height samples, 3x3 windows included |
| Sharpness.SharpnessRegion | ESP32S3_XIAO/src/app_httpd.cpp:34-41 | the grid's bounds stay within the frame, and both loops finish on frames of at least 20 x 15 |
| Sharpness.Laplacian | ESP32S3_XIAO/src/app_httpd.cpp:48-50 | the Laplacian, computed in `int`, is an integer in [0, 1020], and 0 where the five stencil samples are equal |
| Sharpness.Weight | ESP32S3_XIAO/src/app_httpd.cpp:53-56 | the weight is 1.0 or 0.5, and 1.0 exactly when width/3 <= x <= width*2/3 and height/3 <= y <= height*2/3, with the upper bounds inclusive |
| Sharpness.Contribution | ESP32S3_XIAO/src/app_httpd.cpp:58 | `laplacian * weight` lies between half the Laplacian and the whole of it |
| Sharpness.RowWeight | ESP32S3_XIAO/src/app_httpd.cpp:59 | a row of n points adds between n/2 and n to `total_weight` |
| Sharpness.GridWeight | ESP32S3_XIAO/src/app_httpd.cpp:43-61 | `total_weight` is non-negative, and positive exactly when the grid has a row and a column |
| Sharpness.SamplePoint | ESP32S3_XIAO/src/app_httpd.cpp:45-56 | the inner loop body computes the Laplacian and the weight of the point, and their product is the point's contribution |
| Sharpness.SampleRow | ESP32S3_XIAO/src/app_httpd.cpp:44-60 | the inner loop adds the row's weighted Laplacians and weights to the running totals |
| Sharpness.SampleGrid | ESP32S3_XIAO/src/app_httpd.cpp:43-61 | the two loops leave the weighted Laplacian sum and the weight sum over the whole grid |
| Sharpness.CalculateWeightedSharpness | ESP32S3_XIAO/src/app_httpd.cpp:24-64 | returns 0 for a null frame, a null buffer or `len == 0`; otherwise returns the weighted mean over the grid |
| Sharpness.RowBounded | ESP32S3_XIAO/src/app_httpd.cpp:44-60 | along a row the weighted sum lies between 0 and 1020 times the row's weight |
| Sharpness.RowZero | ESP32S3_XIAO/src/app_httpd.cpp:44-60 | along a row the weighted sum is 0 exactly when every sampled Laplacian on it is 0 |
| Sharpness.GridBounded | ESP32S3_XIAO/src/app_httpd.cpp:43-61 | over the grid the weighted sum lies between 0 and 1020 times the total weight |
| Sharpness.GridZero | ESP32S3_XIAO/src/app_httpd.cpp:43-61 | over the grid the weighted sum is 0 exactly when every sampled Laplacian is 0 |
| Sums.MeanBetween | ESP32S3_XIAO/src/app_httpd.cpp:63 | a total between lo and hi times a positive weight has its mean in [lo, hi], and the mean is 0 exactly when the total is |
| Sharpness.WeightedMeanRange | ESP32S3_XIAO/src/app_httpd.cpp:43-63 | the score lies in [0, 1020], and is 0 exactly when no point is sampled or every sampled Laplacian is 0 |
| Sums.GridMeanBetween | ESP32S3_XIAO/src/app_httpd.cpp:63 | a mean of samples in [lo, hi], weighted by non-negative weights with a positive total, lies in [lo, hi] |
| Sharpness.WeightedMeanBetween | ESP32S3_XIAO/src/app_httpd.cpp:43-63 | when a point is sampled and every sampled Laplacian lies in [lo, hi], the score lies in [lo, hi], so it is bounded by the smallest and the largest sampled Laplacian |
| Sharpness.WeightedSharpnessOf | ESP32S3_XIAO/src/app_httpd.cpp:24-63 | the score is 0 for a null frame, a null buffer or `len == 0`, and always lies in [0, 1020] |
| Sharpness.UniformFrameIsNotSharp | ESP32S3_XIAO/src/app_httpd.cpp:24-63 | a uniform frame scores 0 |
| Sharpness.SharpnessTerminatesIff | ESP32S3_XIAO/src/app_httpd.cpp:34-44 | for frames whose tripled width and height fit in 32 bits, the loops finish exactly when the frame is at most 1 row high, or at least 15 rows high and at most 1 or at least 20 columns wide |
| Sharpness.LargeFrameIsScorable | ESP32S3_XIAO/src/app_httpd.cpp:34-50 | a frame of at least 20 x 15 whose buffer holds width * height samples is scored in finite time without a read outside the buffer |
| Sharpness.ShortFrameStalls | ESP32S3_XIAO/src/app_httpd.cpp:35-43 | on a 640 x 14 frame the row loop is entered with step 0 and never ends |
| Sharpness.ShortBufferReadsOutside | ESP32S3_XIAO/src/app_httpd.cpp:25 | a 640 x 480 frame with a 1-byte buffer passes the `len` test, yet its first sampled point reads past the buffer |
| Sharpness.FixedSharpnessRegion | ESP32S3_XIAO/src/app_httpd.cpp:34-41 | with the strides raised to at least 1 the loops always finish, and on frames of at least 20 x 15 the grid is the C code's grid |
| Sharpness.CheckedSharpnessOf | ESP32S3_XIAO/src/app_httpd.cpp:24-64 | a non-empty frame with no area scores Ok(0), as the C loops take no sample; any other non-empty frame scores exactly when it is at least 4 x 4 and the buffer holds width * height samples; a score lies in [0, 1020] |
| Sharpness.CheckedAgrees | ESP32S3_XIAO/src/app_httpd.cpp:24-64 | on frames with no rows, on frames with no columns and a height of 1 or at least 15, and on every frame of at least 20 x 15 with a full buffer, the C loops finish and read safely, and the checked score equals the C score |
| Sharpness.CheckedWeightedSharpness | ESP32S3_XIAO/src/app_httpd.cpp:24-64 | the method with the length and size checks added returns the checked score |
| Window.Box | ESP32S3_XIAO/src/app_httpd.cpp:101-103 | the 3x3 window has nine byte-valued samples, in the loops' dy-then-dx order |
| Window.BoxRead | ESP32S3_XIAO/src/app_httpd.cpp:103 | `buf[idx + dy*width + dx]` is inside the buffer and is sample 3(dy+1) + (dx+1) of the window |
| Window.MaxOver | ESP32S3_XIAO/src/app_httpd.cpp:104 | the running `max_val` is no smaller than its seed or any sample visited |
| Window.MinOver | ESP32S3_XIAO/src/app_httpd.cpp:105 | the running `min_val` is no larger than its seed or any sample visited |
| Window.Range | ESP32S3_XIAO/src/app_httpd.cpp:100-108 | `max_val - min_val` lies in [0, 255] |
| Window.RangeZeroIff | ESP32S3_XIAO/src/app_httpd.cpp:100-108 | `max_val - min_val` is 0 exactly when the nine samples are equal |
| Window.UniformBoxIsFlat | ESP32S3_XIAO/src/app_httpd.cpp:101-103 | every window of a uniform frame is flat |
| Window.LocalRange | ESP32S3_XIAO/src/app_httpd.cpp:100-107 | the nested dy/dx loops leave `max_val` and `min_val` at the window's fold from seeds 0 and 255 |
| Window.LocalVariance | ESP32S3_XIAO/src/app_httpd.cpp:152-168 | the two nested passes leave `local_mean` at the window's mean and `local_var` at its variance |
| Window.SquaredDeviations | ESP32S3_XIAO/src/app_httpd.cpp:162-167 | the running `local_var` is never negative |
| Window.VarianceZeroIff | ESP32S3_XIAO/src/app_httpd.cpp:152-168 | the variance is non-negative, and 0 exactly when the nine samples are equal |
| Sums.RowSumZeroIff | ESP32S3_XIAO/src/app_httpd.cpp:112 | a row of non-negative samples adds up to a non-negative total, which is 0 exactly when each sample is |
| Sums.GridSumZeroIff | ESP32S3_XIAO/src/app_httpd.cpp:85-115 | the grid's non-negative samples add up to a non-negative total, which is 0 exactly when each sample is |
| Sums.AverageZeroIff | ESP32S3_XIAO/src/app_httpd.cpp:117 | `samples > 0 ? total / samples : 0` of a non-negative total is non-negative, and 0 exactly when nothing is sampled or the total is 0 |
| TextSharpness.TextRegion | ESP32S3_XIAO/src/app_httpd.cpp:77-83 | the text grid's loops always finish, because the step is 5 |
| TextSharpness.SobelX | ESP32S3_XIAO/src/app_httpd.cpp:90-92 | `gx` is an integer in [-1020, 1020] |
| TextSharpness.SobelY | ESP32S3_XIAO/src/app_httpd.cpp:94-95 | `gy` is an integer in [-1020, 1020] |
| TextSharpness.SobelFlat | ESP32S3_XIAO/src/app_httpd.cpp:90-95 | `gx` and `gy` are 0 on a window of nine equal samples |
| TextSharpness.Contrast | ESP32S3_XIAO/src/app_httpd.cpp:108 | `contrast` lies in [0, 1], and is 0 exactly on a flat window |
| TextSharpness.Emphasis | ESP32S3_XIAO/src/app_httpd.cpp:111 | the multiplier `0.3 + 0.7 * contrast` lies in [0.3, 1], reaching 0.3 at contrast 0 and 1 at contrast 1 |
| TextSharpness.EmphasisedZeroIff | ESP32S3_XIAO/src/app_httpd.cpp:111 | scaling a non-negative gradient by the multiplier gives a non-negative result, which is 0 exactly when the gradient is 0 |
| TextSharpness.TextSample | ESP32S3_XIAO/src/app_httpd.cpp:90-111 | for a square root, a sample is non-negative, and 0 exactly when both Sobel responses are 0 |
| TextSharpness.TextPoint | ESP32S3_XIAO/src/app_httpd.cpp:87-111 | the inner loop body computes the point's Sobel magnitude emphasised by the window's contrast |
| TextSharpness.SampleTextRow | ESP32S3_XIAO/src/app_httpd.cpp:86-114 | the inner loop adds the row's samples to `total_sharpness` and one per point to `samples` |
| TextSharpness.SampleTextGrid | ESP32S3_XIAO/src/app_httpd.cpp:85-115 | the two loops leave the sum of the samples over the grid, and `samples` equal to rows times columns |
| TextSharpness.CalculateTextSharpness | ESP32S3_XIAO/src/app_httpd.cpp:67-118 | returns 0 for a null frame, a null buffer or `len == 0`; otherwise returns the mean of the samples |
| TextSharpness.TextSamplesZeroIff | ESP32S3_XIAO/src/app_httpd.cpp:85-115 | the grid's samples are non-negative, and all 0 exactly when no sampled point has a Sobel response |
| TextSharpness.TextMeanZeroIff | ESP32S3_XIAO/src/app_httpd.cpp:85-117 | the score is non-negative, and 0 exactly when no sample is taken or no sampled point has a Sobel response |
| TextSharpness.TextSharpnessOf | ESP32S3_XIAO/src/app_httpd.cpp:67-117 | the score is 0 for a null frame, a null buffer or `len == 0`, and for a square root it is never negative |
| TextSharpness.UniformIsEdgeless | ESP32S3_XIAO/src/app_httpd.cpp:90-95 | no sampled point of a uniform frame has a Sobel response |
| TextSharpness.UniformFrameHasNoText | ESP32S3_XIAO/src/app_httpd.cpp:67-117 | a uniform frame scores 0 |
| TextSharpness.VerticalLineOnGrid | ESP32S3_XIAO/src/app_httpd.cpp:77-86 | on a 640 x 480 frame the first sampled row is 80, and column 321 is sampled |
| TextSharpness.VerticalLineEdge | ESP32S3_XIAO/src/app_httpd.cpp:90-92 | next to a one-pixel white line, `gx` is -1020 |
| TextSharpness.VerticalLineIsSharp | ESP32S3_XIAO/src/app_httpd.cpp:67-117 | a black 640 x 480 frame crossed by a white vertical line at x = 320 scores above 0 |
| TextSharpness.TextSampleCount | ESP32S3_XIAO/src/app_httpd.cpp:77-86 | `samples` is the product of the per-axis counts ceil((end - start) / 5) |
| TextSharpness.LargeFrameIsTextScorable | ESP32S3_XIAO/src/app_httpd.cpp:77-103 | on a frame of at least 6 x 6 whose buffer holds width * height samples, every read lies inside the buffer |
| TextSharpness.ShortBufferReadsOutsideText | ESP32S3_XIAO/src/app_httpd.cpp:68 | a 640 x 480 frame with a 1-byte buffer passes the `len` test, yet the scorer reads outside the buffer |
| TextSharpness.SmallFrameReadsOutsideText | ESP32S3_XIAO/src/app_httpd.cpp:77-90 | on a 5 x 5 frame the grid starts at offset 0, whose window reaches before the buffer |
| TextSharpness.CheckedTextSharpnessOf | ESP32S3_XIAO/src/app_httpd.cpp:67-118 | a non-empty frame with no area scores Ok(0), as the C loops take no sample; any other non-empty frame scores exactly when it is at least 6 x 6 and the buffer holds width * height samples; for a square root a score is non-negative |
| TextSharpness.CheckedTextAgrees | ESP32S3_XIAO/src/app_httpd.cpp:67-118 | on frames with no area and on every frame of at least 6 x 6 with a full buffer, the C code reads safely and the checked score equals the C score |
| TextSharpness.CheckedTextSharpness | ESP32S3_XIAO/src/app_httpd.cpp:67-118 | the method with the length and size checks added returns the checked score |
| Quality.QualityRegion | ESP32S3_XIAO/src/app_httpd.cpp:131-137 | the quality grid's loops always finish, because the step is 10 |
| Quality.LocalContrast | ESP32S3_XIAO/src/app_httpd.cpp:144-145 | `local_contrast` lies in [0, 510], and is 0 exactly when the right and lower neighbours equal the pixel |
| Quality.EdgeX | ESP32S3_XIAO/src/app_httpd.cpp:148 | `gx` lies in [-255, 255] |
| Quality.EdgeY | ESP32S3_XIAO/src/app_httpd.cpp:149 | `gy` lies in [-255, 255] |
| Quality.Blend | ESP32S3_XIAO/src/app_httpd.cpp:171 | for non-negative edge and spread, the blend is non-negative, and 0 exactly when contrast, edge and spread are all 0 |
| Quality.QualitySample | ESP32S3_XIAO/src/app_httpd.cpp:141-171 | for a square root, a sample is non-negative, and 0 exactly when the 3x3 window is flat |
| Quality.QualityPoint | ESP32S3_XIAO/src/app_httpd.cpp:141-171 | the inner loop body computes the blend of contrast, edge strength and the root of the variance |
| Quality.SampleQualityRow | ESP32S3_XIAO/src/app_httpd.cpp:140-174 | the inner loop adds the row's samples to `total_quality` and one per point to `samples` |
| Quality.SampleQualityGrid | ESP32S3_XIAO/src/app_httpd.cpp:139-175 | the two loops leave the sum of the samples over the grid, and `samples` equal to rows times columns |
| Quality.CalculateImageQuality | ESP32S3_XIAO/src/app_httpd.cpp:121-178 | returns 0 for a null frame, a null buffer or `len == 0`; otherwise returns the mean of the samples |
| Quality.QualitySamplesZeroIff | ESP32S3_XIAO/src/app_httpd.cpp:139-175 | the grid's samples are non-negative, and all 0 exactly when every sampled window is flat |
| Quality.QualityMeanZeroIff | ESP32S3_XIAO/src/app_httpd.cpp:139-177 | the score is non-negative, and 0 exactly when no sample is taken or every sampled window is flat |
| Quality.QualityOf | ESP32S3_XIAO/src/app_httpd.cpp:121-177 | the score is 0 for a null frame, a null buffer or `len == 0`, and for a square root it is never negative |
| Quality.UniformWindowsAreFlat | ESP32S3_XIAO/src/app_httpd.cpp:152-168 | every sampled window of a uniform frame is flat |
| Quality.UniformFrameHasNoQuality | ESP32S3_XIAO/src/app_httpd.cpp:121-177 | a uniform frame scores 0 |
| Quality.QualitySampleCount | ESP32S3_XIAO/src/app_httpd.cpp:131-140 | `samples` is the product of the per-axis counts ceil((end - start) / 10) |
| Quality.LargeFrameIsQualityScorable | ESP32S3_XIAO/src/app_httpd.cpp:131-157 | on a frame of at least 4 x 4 whose buffer holds width * height samples, every read lies inside the buffer |
| Quality.ShortBufferReadsOutsideQuality | ESP32S3_XIAO/src/app_httpd.cpp:122 | a 640 x 480 frame with a 1-byte buffer passes the `len` test, yet the scorer reads outside the buffer |
| Quality.SmallFrameReadsOutsideQuality | ESP32S3_XIAO/src/app_httpd.cpp:131-141 | on a 3 x 3 frame the grid starts at offset 0, whose window reaches before the buffer |
| Quality.CheckedQualityOf | ESP32S3_XIAO/src/app_httpd.cpp:121-178 | a non-empty frame with no area scores Ok(0), as the C loops take no sample; any other non-empty frame scores exactly when it is at least 4 x 4 and the buffer holds width * height samples; for a square root a score is non-negative |
| Quality.CheckedQualityAgrees | ESP32S3_XIAO/src/app_httpd.cpp:121-178 | on frames with no area and on every frame of at least 4 x 4 with a full buffer, the C code reads safely and the checked score equals the C score |
| Quality.CheckedImageQuality | ESP32S3_XIAO/src/app_httpd.cpp:121-178 | the method with the length and size checks added returns the checked score |

## Left out

- `stream_handler` (ESP32S3_XIAO/src/app_httpd.cpp:180-278) is not modelled. It is an HTTP multipart streaming loop over camera, JPEG-encoder, timer and HTTP-server calls, all I/O or foreign code.
- `index_handler` and `startCameraServer` (ESP32S3_XIAO/src/app_httpd.cpp:280-339) are not modelled. They are a static HTML page and server configuration.
- ESP32S3_XIAO/src/main.cpp and src/main.cpp are not part of this model. They hold camera pin setup, WiFi association and UART forwarding, all device I/O.
- `float` arithmetic is modelled as exact `real`. IEEE-754 rounding of the accumulators, of `/ 255.0f` and of the blend is not modelled.
- `sqrt` is a parameter. Only the two properties named above are assumed of it, so no score is bounded above in terms of `sqrt`.
- The `int samples` counters of the text and quality scorers are unbounded integers in the model. 32-bit overflow is not modelled.
- `fb->len` is modelled as the length of the buffer sequence. A `len` that disagrees with the real allocation cannot be expressed.
- `dy*width` mixes `int` and `size_t`, so for dy = -1 it wraps modulo 2^32. The sum `idx + dy*width + dx` therefore lands on the same address as the signed offset, and the model uses the signed offset.
- The C scorers are modelled only on frames whose reads stay inside the buffer and whose loops finish: `Scorable`, `TextScorable` and `QualityScorable` are their preconditions. Other frames are covered only by the counterexample lemmas and the checked scorers.
- TextSharpness.TextSharpnessOf: comparisons between frames, such as a sharp vertical step scoring above its blurred copy, are not stated, because `sqrt` is only assumed to be non-negative and 0 exactly at 0, not strictly increasing. `TextSharpness.VerticalLineIsSharp` shows only that the step scores above 0.
- Gradient.CalculateGradient: no caller is shown, so its reads are a precondition (CrossAt) rather than a checked error path.

## Findings

| source | as written | input that shows it | evidently intended | confidence | as-written member | corrected member |
|---|---|---|---|---|---|---|
| ESP32S3_XIAO/src/app_httpd.cpp:25 | the weighted-sharpness guard tests only `len != 0`, never `len >= width * height` | a 640 x 480 frame with `len == 1`: the first sample at (160, 120) reads offset 76960 | refuse a buffer shorter than the frame | not executed | Sharpness.ShortBufferReadsOutside | Sharpness.CheckedWeightedSharpness |
| ESP32S3_XIAO/src/app_httpd.cpp:68 | the text-sharpness guard tests only `len != 0` | a 640 x 480 frame with `len == 1` | refuse a buffer shorter than the frame | not executed | TextSharpness.ShortBufferReadsOutsideText | TextSharpness.CheckedTextSharpness |
| ESP32S3_XIAO/src/app_httpd.cpp:122 | the quality guard tests only `len != 0` | a 640 x 480 frame with `len == 1` | refuse a buffer shorter than the frame | not executed | Quality.ShortBufferReadsOutsideQuality | Quality.CheckedImageQuality |
| ESP32S3_XIAO/src/app_httpd.cpp:34-35 | `step_x = width / 20` and `step_y = height / 15` are 0 on frames under 20 columns or 15 rows | a 640 x 14 frame: rows 3 to 9 are to be visited with step 0, so the row loop never ends | a stride of at least 1 | not executed | Sharpness.ShortFrameStalls | Sharpness.CheckedWeightedSharpness |
| ESP32S3_XIAO/src/app_httpd.cpp:77-80 | the text grid starts at `width / 6`, which is 0 on frames under 6 pixels | a 5 x 5 frame with a full buffer: the first sample at offset 0 reads `buf[0 - 1 - width]` | refuse frames too small to keep the grid off the edge | not executed | TextSharpness.SmallFrameReadsOutsideText | TextSharpness.CheckedTextSharpness |
| ESP32S3_XIAO/src/app_httpd.cpp:131-134 | the quality grid starts at `width * 3 / 10`, which is 0 on frames under 4 pixels | a 3 x 3 frame with a full buffer: the first sample at offset 0 reads `buf[0 - 1 - width]` | refuse frames too small to keep the grid off the edge | not executed | Quality.SmallFrameReadsOutsideQuality | Quality.CheckedImageQuality |
