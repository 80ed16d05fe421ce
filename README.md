# OCR page-quality heuristics, modelled in Dafny

This project models the quality-heuristics engine of a PDF OCR-readiness checker. Every page is
rendered to an RGBA bitmap and three heuristics score it from 0 to 100:

- **Text clarity** is the mean 3×3 luma variance at 5000 random interior points. A two-piece
  remap and a clamp turn it into a sharpness score, which is mixed 70/30 with a text-uniformity
  score. The uniformity score comes from a Sobel pass: the strong edges are binned by direction
  into 8 bins, and the score measures how far that histogram is from flat.
- **Noise level** samples every 32nd byte and quantizes each colour channel with `round(c/16)`.
  It takes the two most frequent quantized colours as background and foreground. The score is
  100 minus three points per percent of samples in any other colour.
- **Skew / rotation** binarizes the page at luma 128. For each of the 21 angles −5°, −4.5°, …, 5°
  it projects the dark pixels onto a clipped profile and keeps the first angle whose profile
  variance is strictly largest. The score is 100 minus 15 points per degree.

A page's overall score is the weighted mean of its three metrics, with weights 55/20/25. The
document score is the plain mean of the page scores. The per-metric averages group the page
metrics by name in first-seen order and average each name's scores.

Module layout, one file each, in dependency order:

- `Pixels` (`pixels.dfy`): the image, the luma forms and the exact integer threshold test.
- `Stats` (`stats.dfy`): left-to-right sums, means and population variance over reals.
- `Counting` (`counting.dfy`): occurrence counts, first-seen order and histograms. First-seen
  order is the key order of a JavaScript object whose keys are neither integer-like nor
  `Object.prototype` properties.
- `Metrics` (`metrics.dfy`): the result records, the metric configuration and the page score.
- `Aggregation` (`aggregation.dfy`): the per-name metric averages and the document score.
- `Noise`, `Skew`, `Uniformity` and `Clarity`: the four pixel heuristics.
- `Analysis` (`analysis.dfy`): the single-page analysis and the document loop.

Each loop of the source is a `method` with a `while`/`for` loop and its invariants. Each method
is proved equal to a specification function on values (`NoiseScore`, `Profile`,
`UniformityScore`, `AverageMetrics`, …). The properties are lemmas about those functions.

The model makes these choices:

- Scores are `real`.
- The skew threshold is the integer test 299R + 587G + 114B < 128000, proved equivalent to luma
  < 128.
- The `Uint8Array` grayscale is that integer sum divided by 1000, which is the luma truncated
  toward zero.
- "Magnitude > 50" is gx² + gy² > 2500 on the integer Sobel responses.
- Inputs the source obtains from the floating-point library are parameters:
  - the rounded projection index `round(x·sin a + y·cos a)` is `proj`;
  - the `atan2` direction bin is `bin`, returning 0..7;
  - the two `Math.random()` results of each clarity sample are a sequence of `Draw`s.
- A variance of an empty profile is NaN in the source. It is the `NaN` case of `Skew.Num`, and it
  never compares greater.
- The stable descending sort of the colour entries is characterised by what its first two entries
  are (`Noise.StableSortHead`). The analysis picks those two directly (`Noise.Best`).
- The progress callback becomes a returned trace of `Progress` records.

Two facts about the code that are easy to misread:

- `round(c/16)` on bytes gives 17 levels, 0..16 (`Noise.Quantize`).
- The clarity sampler draws interior coordinates only on pages of at least 3×3 pixels. The code
  does not check the size (see "## Left out").

## Model

| member | source | states |
|---|---|---|
| Pixels.DarkIffLumaBelowThreshold | services/analysisService.ts:204-208 | the integer test 299R+587G+114B < 128000 holds exactly when 0.299R+0.587G+0.114B < 128 |
| Pixels.Gray8 | services/analysisService.ts:255-257 | the byte stored for a pixel is an integer in 0..255, at most the luma and within 1 of it (truncation) |
| Pixels.Luma | services/analysisService.ts:127 | the luma of a pixel lies in [0, 255] |
| Stats.Variance | services/analysisService.ts:233-234 | the mean squared deviation from the mean is never negative |
| Stats.ConstantVariance | services/analysisService.ts:233-234 | a sequence of equal values has variance 0 |
| Stats.MeanBetween | services/analysisService.ts:36 | a mean of values in [lo, hi] lies in [lo, hi] |
| Counting.FirstSeenDistinct | services/analysisService.ts:57-58 | the keys of a dictionary built by first insertion are distinct |
| Counting.FirstSeenOrdered | services/analysisService.ts:65 | the keys come in the order of their first occurrences (the object's key order, for keys that are neither integer-like nor inherited) |
| Counting.FirstSeenCountsAll | services/analysisService.ts:185-190 | summing each distinct key's count once gives the number of entries |
| Counting.HistogramCounts | services/analysisService.ts:226-227 | bucket p of a histogram holds the number of occurrences of p |
| Counting.HistogramTotal | services/analysisService.ts:226-227 | the buckets add up to the number of values in range, which is all of them when every value is in range |
| Metrics.PageMetrics | services/analysisService.ts:92-96 | a page's metrics are clarity, noise and skew in that order, each with its own score and the weight and description of its configuration entry |
| Metrics.PageScoreOfThree | services/analysisService.ts:9-13 | the weights 55, 20 and 25 total 100, and the page score is (55·clarity + 20·noise + 25·skew)/100 |
| Metrics.PageScoreBetween | services/analysisService.ts:99-100 | a weighted mean with non-negative weights lies between the lowest and the highest score |
| Metrics.WeightedSumBounds | services/analysisService.ts:99-100 | the weighted sum lies between lo·Σw and hi·Σw when every score is in [lo, hi] |
| Metrics.PageScoreInRange | services/analysisService.ts:92-100 | three scores in [0, 100] give a page score in [0, 100] |
| Metrics.PageScoreOfEqualScores | services/analysisService.ts:92-100 | three equal scores v give a page score of v: all 100 gives 100, all 0 gives 0 |
| Aggregation.CalculateAverageMetrics | services/analysisService.ts:52-69 | the accumulation loops and the final mapping return exactly AverageMetrics over all pages' metrics |
| Aggregation.AddPageMetrics | services/analysisService.ts:56-62 | after one page's metrics, the totals and key order describe all metrics seen so far |
| Aggregation.AddMetric | services/analysisService.ts:57-61 | a new name gets an empty entry with the metric's name, weight and description, placed last in key order; then the score is added and the count goes up by one |
| Aggregation.TrackStep | services/analysisService.ts:55-62 | one more metric keeps every name's entry equal to its score total, its count and its first occurrence's configuration, and keeps the keys in first-seen order |
| Aggregation.ExpectedSnoc | services/analysisService.ts:57-61 | the entry for a name after one more metric: opened fresh for an unseen name, incremented for the metric's own name, unchanged for the others |
| Aggregation.FirstWithSnoc | services/analysisService.ts:57-58 | a later metric never replaces the configuration taken from a name's first occurrence |
| Aggregation.TracksAverages | services/analysisService.ts:65-68 | mapping the tracked totals in key order to config plus totalScore/count gives AverageMetrics |
| Aggregation.AverageMetricsNames | services/analysisService.ts:65-68 | the averages carry each distinct name exactly once, every name seen and no other, in order of first appearance |
| Aggregation.AverageMetricsEntries | services/analysisService.ts:58-67 | each average's score is its name's score total divided by its (positive) count; its weight and description come from the name's first occurrence |
| Aggregation.StandardTotals | services/analysisService.ts:60-61 | over pages carrying clarity, noise and skew, a name's total is the sum of its column and its count is the number of pages |
| Aggregation.StandardAverageMetrics | services/analysisService.ts:52-69 | pages all carrying [clarity, noise, skew] average to exactly those three names in that order, each scored with the mean of its column, with the first page's weight and description |
| Aggregation.DocumentScoreInRange | services/analysisService.ts:36 | page scores in [0, 100] give a document score in [0, 100] |
| Aggregation.AverageMetricsInRange | services/analysisService.ts:65-68 | standard pages with metric scores in [0, 100] average to three metrics in [0, 100] |
| Analysis.PageSummaryOf | services/analysisService.ts:88-102 | a page's metrics are the three standard names with the clarity, noise and skew scores of its own bitmap, and its overall score is their 55/20/25 weighted mean |
| Analysis.AnalyzeSinglePage | services/analysisService.ts:88-102 | running the three analyzers and the weighted reduce gives PageSummaryOf, with an overall score in [0, 100] |
| Analysis.AnalyzePdfQuality | services/analysisService.ts:21-47 | the page loop and the final record give exactly Analysis(pages), and the progress trace is (1, N), (2, N), …, (N, N) |
| Analysis.Reports | services/analysisService.ts:25-26 | progress entry i reports page i+1 of the total |
| Analysis.AnalysisPages | services/analysisService.ts:22-33 | a run reports pageCount = N, with N page results numbered 1..N in order, each carrying its own page's summary |
| Analysis.AnalysisScores | services/analysisService.ts:36-44 | the document score lies in [0, 100], and the average metrics are clarity, noise and skew in that order, each in [0, 100] |
| Analysis.PageInRange | services/analysisService.ts:88-100 | each of a page's three metric scores and its overall score lie in [0, 100] |
| Analysis.BlankPageScore | services/analysisService.ts:88-100 | a page of one light colour scores clarity 30, noise 100 and skew 100, so 61.5 overall |
| Analysis.BlankPageNoise | services/analysisService.ts:170-181 | a page of one colour has one quantized colour, so its noise score is 100 |
| Noise.Quantize | services/analysisService.ts:173 | round(c/16) is the level of 0..16 nearest to c/16, halves rounded up |
| Noise.ColorAt | services/analysisService.ts:171-173 | every quantized channel lies in 0..16 |
| Noise.Samples | services/analysisService.ts:170 | the sampled offsets 0, 32, 64, … below the buffer length number ceil(len/32) |
| Noise.SampleOffset | services/analysisService.ts:170-171 | every sampled offset has its red, green and blue bytes inside the buffer |
| Noise.CountsStep | services/analysisService.ts:174 | tallying one more sample sets its key to (old count or 0) + 1 and leaves the other keys unchanged |
| Noise.AddSample | services/analysisService.ts:174 | the loop body increments the key's count, opening it at 1, and a new key goes last in key order |
| Noise.CountColors | services/analysisService.ts:167-175 | the dictionary maps each sampled colour to its number of samples, with keys in first-seen order |
| Noise.Best | services/analysisService.ts:177-179 | the chosen index (other than skip) holds the largest value and is the earliest such; it is -1 exactly when there is no candidate |
| Noise.BestUnique | services/analysisService.ts:177-179 | the earliest largest index is the only index with that characterisation |
| Noise.StableSortHead | services/analysisService.ts:177-179 | in any stable sort by descending count, entry 0 is the earliest largest count and entry 1 is the earliest largest of the others |
| Noise.Dominant | services/analysisService.ts:177-179 | background and foreground are two distinct sampled colours: the background has the largest count, the foreground the largest of the rest |
| Noise.SumEntries | services/analysisService.ts:183-190 | the second pass sums the counts of the keys other than background and foreground, and the counts of all keys |
| Noise.AnalyzeNoise | services/analysisService.ts:165-196 | the analyzer returns NoiseScore: 100 with fewer than two quantized colours, and always a value in [0, 100] |
| Noise.NoisySplit | services/analysisService.ts:185-189 | the noisy count plus the two dominant counts is the total of all counts |
| Noise.PairNoise | services/analysisService.ts:183-190 | the noisy samples are all samples except those of the two chosen colours |
| Noise.SampleScoreFormula | services/analysisService.ts:181-194 | with two or more colours the score is max(0, 100 − 300·noisy/total), where noisy = total − the two dominant counts |
| Noise.PairScoreSwap | services/analysisService.ts:183-194 | the pair score depends only on how many samples the pair covers |
| Noise.SampleScoreAnyTopPair | services/analysisService.ts:177-194 | any pair of distinct colours with the two largest counts gives the same score, so the tie order does not matter |
| Noise.SampleScoreInRange | services/analysisService.ts:192-195 | the noise score lies in [0, 100] |
| Noise.PenaltyInRange | services/analysisService.ts:192-194 | noisy ≤ total gives a penalty score in [0, 100] |
| Noise.TwoColorsScoreFull | services/analysisService.ts:177-195 | a page of exactly two quantized colours scores 100 |
| Noise.PairScoreCovering | services/analysisService.ts:183-194 | a pair covering every sample leaves no noise and scores 100 |
| Noise.CountsCoverSamples | services/analysisService.ts:170-175 | the colour counts add up to ceil(len/32) |
| Skew.Binary | services/analysisService.ts:205-211 | each entry of the binary image is 0 or 1, and is 1 exactly when the pixel is dark (luma below 128) |
| Skew.Binarize | services/analysisService.ts:205-211 | the binarization loop fills the buffer with Binary(data) |
| Skew.ProjectRow | services/analysisService.ts:223-231 | the column loop of row y adds that row's dark pixels to the bins their projections hit |
| Skew.Project | services/analysisService.ts:220-231 | the two projection loops fill a zero profile of height bins with Profile |
| Skew.RowProfileHistogram | services/analysisService.ts:223-229 | adding a row pixel by pixel to a histogram equals histogramming the extended index list |
| Skew.GridProfileHistogram | services/analysisService.ts:220-231 | the profile is the clipped histogram of the projection indices of the dark pixels in scan order |
| Skew.ProfileCounts | services/analysisService.ts:220-231 | bin i of a profile is the number of dark pixels whose projection is i |
| Skew.GridLength | services/analysisService.ts:222-225 | one projection index is produced per dark pixel |
| Skew.ProfileTotal | services/analysisService.ts:220-231 | each profile has one bin per row and holds at most as many pixels as are dark |
| Skew.Pick | services/analysisService.ts:213-239 | the picked index has a variance strictly above 0 and above every earlier variance and at least every later one; -1 with best 0 exactly when no variance exceeds 0 |
| Skew.PickStep | services/analysisService.ts:236-239 | one more angle replaces the best exactly when its variance is strictly greater |
| Skew.TryAngle | services/analysisService.ts:217-239 | one angle's projection, variance and strict comparison update the best angle and variance |
| Skew.SearchAngles | services/analysisService.ts:213-240 | the angle loop from −5 to 5 in steps of 0.5 returns the angle Pick selects, or 0 |
| Skew.AnalyzeSkew | services/analysisService.ts:202-244 | the analyzer returns SkewScore, and always a value in [25, 100] |
| Skew.SkewAngleInGrid | services/analysisService.ts:216 | the chosen angle is one of the 21 grid angles |
| Skew.SkewScoreInRange | services/analysisService.ts:242-243 | the skew score 100 − 15·|angle| lies in [25, 100] |
| Skew.BlankPageScoresFull | services/analysisService.ts:206-243 | a page without dark pixels keeps angle 0 and scores 100 |
| Uniformity.Grayscale | services/analysisService.ts:255-258 | the grayscale buffer holds integers 0..255, each the truncated luma of its pixel |
| Uniformity.ToGrayscale | services/analysisService.ts:255-258 | the fill loop produces Grayscale(data) |
| Uniformity.KernelStep | services/analysisService.ts:271-275 | the kx loop adds one kernel row's three products to each response |
| Uniformity.Gradient | services/analysisService.ts:268-276 | the ky/kx loops compute both Sobel responses Gx and Gy at (x, y) |
| Uniformity.KernelSumTerms | services/analysisService.ts:270-276 | a kernel response is the sum of its nine pixel-times-coefficient products, row by row |
| Uniformity.SobelForms | services/analysisService.ts:260-276 | with the two Sobel kernels the responses are the textbook horizontal and vertical differences of the 3×3 neighbourhood |
| Uniformity.EdgeRow | services/analysisService.ts:267-286 | the column loop of row y counts the row's strong edges and adds each to its direction bin |
| Uniformity.RowHistogramBins | services/analysisService.ts:279-285 | adding a row's edges one at a time equals histogramming the extended bin list |
| Uniformity.CalculateTextUniformityScore | services/analysisService.ts:252-300 | the analyzer returns UniformityScore: 100 with fewer than 1000 strong edges, and always a value in [0, 100] |
| Uniformity.UniformityScore | services/analysisService.ts:289-299 | the uniformity score lies in [0, 100] |
| Uniformity.Normalized | services/analysisService.ts:291 | each normalized bin is its count over the strong-edge count |
| Uniformity.HistogramCountsEdges | services/analysisService.ts:280-284 | when every bin index is in 0..7, the 8 bins add up to the number of strong edges |
| Uniformity.RowBinsInRange | services/analysisService.ts:267-284 | a row contributes at most one edge per interior column, each with a bin in 0..7 |
| Uniformity.GridBinsInRange | services/analysisService.ts:266-284 | the interior rows contribute at most (w−2) per row, each with a bin in 0..7 |
| Uniformity.EdgeHistogramTotal | services/analysisService.ts:266-287 | only the (w−2)·(h−2) interior pixels are examined, and the direction bins add up to strongEdgeCount |
| Uniformity.HistogramScoreInRange | services/analysisService.ts:289-299 | the histogram score lies in [0, 100] |
| Uniformity.OneBinScoresFull | services/analysisService.ts:291-299 | with at least 1000 strong edges all in one direction bin, the histogram is as far from flat as it can be and the score is 100 |
| Uniformity.FlatNoGradient | services/analysisService.ts:270-279 | on a flat neighbourhood both Sobel responses vanish |
| Uniformity.FlatPageScoresFull | services/analysisService.ts:266-289 | a page of one gray level has no strong edges and scores 100 |
| Clarity.SampleCoord | services/analysisService.ts:120-121 | floor(r·(n−2)) + 1 for r in [0, 1) is an interior coordinate 1..n−2 |
| Clarity.LocalVariance | services/analysisService.ts:123-133 | the variance of the nine neighbourhood lumas is never negative |
| Clarity.DrawVariance | services/analysisService.ts:119-133 | the variance at the pixel a draw selects is never negative |
| Clarity.TotalVariance | services/analysisService.ts:116-134 | the accumulated variance is never negative |
| Clarity.PushRow | services/analysisService.ts:125-129 | the dx loop appends the three lumas of row y+dy, left to right |
| Clarity.Neighbourhood | services/analysisService.ts:123-130 | the dy/dx loops collect the nine lumas of the 3×3 neighbourhood in scan order |
| Clarity.AddSample | services/analysisService.ts:119-134 | one sampling iteration adds the variance at the drawn pixel to the running total |
| Clarity.AnalyzeClarity | services/analysisService.ts:113-158 | the analyzer returns ClarityScore for its draws, and always a value in [0, 100] |
| Clarity.Clamp | services/analysisService.ts:148 | max(0, min(100, v)) lies in [0, 100], is v inside that range, 0 below it and 100 above it |
| Clarity.RemapContinuous | services/analysisService.ts:140-147 | both pieces of the remap give 40 at 80, with slope 1/2 below and 3 above |
| Clarity.RemapMonotone | services/analysisService.ts:140-147 | the remap never reverses the order of two scores |
| Clarity.RemapRange | services/analysisService.ts:140-147 | the remap sends [0, 100] into [0, 100], fixing 0 and 100 |
| Clarity.ClampMonotone | services/analysisService.ts:148 | the clamp never reverses the order of two values |
| Clarity.SharpnessMonotone | services/analysisService.ts:137-148 | more total variance never lowers the sharpness score |
| Clarity.SharpnessEnds | services/analysisService.ts:137-148 | sharpness is 0 exactly when the total variance is 0, and 100 exactly when the total is at least 750000 (a mean of 150 over the 5000 samples) |
| Clarity.ClarityIsWeightedMix | services/analysisService.ts:155-157 | the outer clamp never binds: clarity is exactly 0.7·sharpness + 0.3·uniformity |
| Clarity.FlatTotalVariance | services/analysisService.ts:119-135 | on a page of one luma every sampled neighbourhood has variance 0 |
| Clarity.FlatGrayscale | services/analysisService.ts:255-258 | a page of one luma has one grayscale level throughout |
| Clarity.FlatPageClarity | services/analysisService.ts:113-158 | a page of one luma has sharpness 0 and uniformity 100, so clarity 30 |

## Left out

- PDF.js decoding, the canvas rendering at scale 1.5 and the async/await sequencing of
  `analyzeSinglePage` and `analyzePdfQuality` are foreign library calls and I/O. The model takes
  each page's bitmap as input.
- `Math.random` is replaced by the injected `Draw` sequence, one pair per sample, each in [0, 1).
- The floating-point behaviour of `Math.sin`, `Math.cos`, `Math.round` and `Math.atan2` is replaced
  by the parameters `proj` and `bin`. The rounding of `atan2` at a bin edge, such as an angle of
  exactly 360 after the shift at line 282, is not modelled: `bin` always returns 0..7.
- Luma, the variances and the score formulas use exact real arithmetic, not IEEE doubles.
- Uniformity.Grayscale: the `Uint8Array` store truncates the exact luma; a double that rounds to
  just below an integer is not modelled.
- The colour key string `"r,g,b"` is modelled as the `Color` triple. Distinct triples give distinct
  strings, and no key is integer-like, so JavaScript object key order is insertion order.
- Aggregation.AverageMetrics: names are treated as own keys in first-seen order. That is
  JavaScript's behaviour only for names that are neither integer-like (listed first, in ascending
  numeric order) nor `Object.prototype` properties such as `constructor`, for which no entry is
  opened and the count becomes NaN. The three fixed names `analyzeSinglePage` produces are such
  names.
- Noise.Dominant: the library sort is characterised by its first two entries
  (`Noise.StableSortHead`), not modelled as a full sorting algorithm.
- Analysis.AnalyzePdfQuality: requires at least one page. With zero pages the source divides 0 by
  0 and reports NaN.
- Analysis.AnalyzePdfQuality: the progress trace records the reports in page order. Their
  interleaving with the page analyses is not observable in the model, because the analyses have
  no effects.
- Clarity.AnalyzeClarity: requires a page of at least 3×3 pixels. On smaller pages the source's
  sample coordinates fall outside the interior and it reads past the row or the buffer; that
  behaviour is not modelled.
- Noise.AnalyzeNoise: requires a buffer length that is a multiple of 4, as every RGBA buffer's is.
- Exceptions from a missing canvas context (line 79) are not modelled.
- `App.tsx`, the React components and `types.ts` hold UI, plumbing and interface declarations;
  only the record shapes of `types.ts:2-20` are used, as the datatypes of `Metrics`.
