# MetalCircle audio analysis and circle layout, modelled in Dafny

MetalCircle is a small iOS/macOS app. It plays a music file, taps the audio
graph for sample buffers and draws a circle with Metal whose look follows the
sound. This project models the sequential logic at its core. It proves what
that logic computes.

- `signal_processing.dfy`, module `SignalProcessing`, covers the static
  helpers of `SignalProcessing`:
  - `RootMeanSquare` maps a buffer's mean-square power to a loudness in
    [0.3, 0.6].
  - `linearInterpolate` builds an 11-value ramp between two loudness values.
  - `fft` computes the 512-bin magnitude spectrum of a 1024-sample window,
    scaled by 25/512.
- `audio_visualizer.dfy`, module `AudioVisualizer`, covers
  `createVertexPoints`. It appends 721 perimeter points and 360 origins to
  `circleVertices`, in the triangle-strip order that `draw` renders with its
  hard-coded count of 1081 vertices.
- `audio_analyzer.dfy`, module `AudioAnalyzer`, covers the block installed by
  `installTap`. It concatenates the channels of a PCM buffer into one array
  and hands that array to `onUpdate`.

Samples and all other arithmetic are real numbers. Library calls with no
closed form are function-typed parameters: `log10` for `log10f`, `execute`
for `vDSP_DFT_Execute` with its precomputed setup, and `sqrt` for the square
root inside `vDSP_zvabs`. `vDSP_measqv` and `vDSP_vsmul` are written out. The
decibel value can be NaN or infinite, so it is the datatype
`SignalProcessing.Float`, and silence (`log10f(0)`, minus infinity) is its
`NegInf` case.

On these points the model follows the code as written:

- `fft` reads `data[0...1023]` unconditionally and pads nothing. `Fft`
  therefore requires at least 1024 samples.
- The ramp from 0 to 1 reaches 1 at index 9 already (line 51 averages
  `vals[10]` with `current`). So not every intermediate value lies strictly
  inside (0, 1). `RampReachesCurrentEarly` states this. The ramp is also not
  evenly spaced: the share of `current` at each index is 1/16, 1/8, 1/4, 5/16,
  13/32, 1/2, 5/8, 3/4, 3/4, 1, 1.
- The cut-off in `RootMeanSquare` does not catch NaN: both comparisons are
  false, so a NaN decibel value comes back as NaN. `Loudness` says so.
- The only cross-thread step is the `DispatchQueue.main.async` call that
  delivers the flattened array to `onUpdate`.

## Model

| member | source | states |
|---|---|---|
| `SignalProcessing.Loudness` | MetalCircle/SignalProcessing.swift:16-38 | A non-NaN decibel value gives a finite result in [0.3, 0.6]. At or below -40 dB the result is exactly 0.3, and so is minus infinity (silence). At or above 0 dB the result is exactly 0.6, and so is plus infinity. Between -40 and 0 dB it is exactly 0.3 + (160 + dB - 120)/(40/0.3), unclamped. A NaN decibel value gives NaN. |
| `SignalProcessing.LoudnessMonotone` | MetalCircle/SignalProcessing.swift:16-37 | The loudness never decreases as the decibel value grows, with -inf below every finite value and +inf above. |
| `SignalProcessing.SumOfSquares` | MetalCircle/SignalProcessing.swift:14 | The sum of squared samples is non-negative, and it is 0 when every sample is 0. |
| `SignalProcessing.MeanSquare` | MetalCircle/SignalProcessing.swift:13-14 | `vDSP_measqv` over the frames: never negative, and 0 for silence. With no frames `val` keeps its initial 0. |
| `SignalProcessing.DecibelMonotone` | MetalCircle/SignalProcessing.swift:16 | With a log10f that never decreases on positive values, `10 * log10f(val)` never decreases as the mean square grows. It is never NaN, and silence (minus infinity) lies below every positive mean square. |
| `SignalProcessing.RootMeanSquare` | MetalCircle/SignalProcessing.swift:12-39 | For any frameLength samples the loudness is finite and in [0.3, 0.6]. An all-zero buffer gives exactly 0.3, whatever log10f computes. |
| `SignalProcessing.RootMeanSquareMonotone` | MetalCircle/SignalProcessing.swift:12-38 | With a non-decreasing log10f, a buffer whose first frameLength samples have the larger mean-square power never gets a smaller loudness. Any frameLength up to the buffer's length is allowed, zero included. |
| `SignalProcessing.Ramp` | MetalCircle/SignalProcessing.swift:44-58 | The reference ramp: 11 values, value k being previous + share_k·(current − previous). |
| `SignalProcessing.LinearInterpolate` | MetalCircle/SignalProcessing.swift:44-58 | The midpoint assignments into the 11-element array produce exactly the reference ramp. |
| `SignalProcessing.RampFromValues` | MetalCircle/SignalProcessing.swift:45-56 | The ramp value by value, for current c and previous p: (c+15p)/16, (c+7p)/8, (c+3p)/4, (5c+11p)/16, (13c+19p)/32, (c+p)/2, (5c+3p)/8, (3c+p)/4, (3c+p)/4, c, c. Eleven values equal to these are the ramp. |
| `SignalProcessing.RampLandmarks` | MetalCircle/SignalProcessing.swift:45-56 | Index 10 and index 9 equal current. Index 5 is (current + previous)/2. Indices 7 and 8 are both (3·current + previous)/4. Index 0 is (current + 15·previous)/16. |
| `SignalProcessing.RampSharesOrdered` | MetalCircle/SignalProcessing.swift:45-56 | Every share of current lies in [0, 1], and the shares never decrease along the array. |
| `SignalProcessing.RampBetween` | MetalCircle/SignalProcessing.swift:45-56 | Every ramp value lies between previous and current, whichever of the two is larger. |
| `SignalProcessing.RampMonotone` | MetalCircle/SignalProcessing.swift:45-56 | The ramp is non-decreasing when previous ≤ current and non-increasing when current ≤ previous. |
| `SignalProcessing.RampFlat` | MetalCircle/SignalProcessing.swift:45-56 | When current equals previous, all 11 values equal it. |
| `SignalProcessing.RampReachesCurrentEarly` | MetalCircle/SignalProcessing.swift:50-52 | From 0 to 1, indices 0 to 8 lie strictly inside (0, 1), but index 9 is already 1. |
| `SignalProcessing.Magnitudes` | MetalCircle/SignalProcessing.swift:89-95 | `vDSP_zvabs` gives one magnitude per requested bin. None is negative when the square root is never negative. |
| `SignalProcessing.Scaled` | MetalCircle/SignalProcessing.swift:98-100 | `vDSP_vsmul` keeps the length. A non-negative factor keeps non-negative values non-negative. |
| `SignalProcessing.Spectrum` | MetalCircle/SignalProcessing.swift:61-103 | The spectrum of a 1024-sample window has exactly 512 values, and none is negative. |
| `SignalProcessing.SpectrumBin` | MetalCircle/SignalProcessing.swift:79-100 | Bin k is (25/512)·sqrt(re_k² + im_k²) of the DFT of the window, computed with an all-zero imaginary input. |
| `SignalProcessing.SpectrumOfSilence` | MetalCircle/SignalProcessing.swift:63-102 | Suppose the DFT maps the zero signal to zero and sqrt(0) = 0. Then silence gives 512 zeros. |
| `SignalProcessing.Fft` | MetalCircle/SignalProcessing.swift:61-103 | Copying data[0...1023] into a zeroed input and running the pipeline gives the spectrum of exactly the first 1024 samples. Nothing beyond them is read. |
| `AudioVisualizer.LayoutShape` | MetalCircle/AudioVisualizer.swift:116-126 | After n loop steps there are n + n/2 vertices. Vertex k is the origin when k mod 3 = 2, and otherwise perimeter step 2·(k/3) + k mod 3. |
| `AudioVisualizer.PerimeterIndex` | MetalCircle/AudioVisualizer.swift:116-120 | Perimeter step i, at i/2 degrees, sits at index i + i/2. |
| `AudioVisualizer.OriginFollowsOddSteps` | MetalCircle/AudioVisualizer.swift:123-125 | The vertex right after perimeter step i is the origin exactly when i is odd. |
| `AudioVisualizer.NoAdjacentOrigins` | MetalCircle/AudioVisualizer.swift:116-126 | No two origins are adjacent. |
| `AudioVisualizer.LayoutOrigins` | MetalCircle/AudioVisualizer.swift:123-125 | n steps append n/2 origins. |
| `AudioVisualizer.FullCircle` | MetalCircle/AudioVisualizer.swift:110-126 | The full loop appends 1081 vertices, the vertexCount drawn at line 98, and 360 of them are origins. The first vertex is the point at 0 degrees and the last is the point at 360 degrees. Every perimeter angle lies in [0, 360]. |
| `AudioVisualizer.AudioVisualizer.constructor` | MetalCircle/AudioVisualizer.swift:42-45 | Starting from an empty `circleVertices`, init holds exactly the full layout of 1081 vertices. The vertex buffer length is count × stride. |
| `AudioVisualizer.AudioVisualizer.CreateVertexPoints` | MetalCircle/AudioVisualizer.swift:110-127 | The method only appends: the new array is the old array followed by the layout of 721 steps. |
| `AudioVisualizer.AudioVisualizer.DrawnVertices` | MetalCircle/AudioVisualizer.swift:87-98 | Drawing 1081 vertices from vertex 0 covers every vertex of the buffer and reads no byte beyond it. |
| `AudioAnalyzer.FlattenedLength` | MetalCircle/AudioAnalyzer.swift:58-68 | The flattened array has channelCount × frameLength samples. |
| `AudioAnalyzer.FlattenedAt` | MetalCircle/AudioAnalyzer.swift:62-67 | Sample j of channel i is at index i·frameLength + j, with channel 0 first. |
| `AudioAnalyzer.FlattenedChannel` | MetalCircle/AudioAnalyzer.swift:64-66 | Channel i fills the slice [i·frameLength, (i+1)·frameLength) with its first frameLength samples, in order. |
| `AudioAnalyzer.FlattenedEmpty` | MetalCircle/AudioAnalyzer.swift:60-64 | With zero channels or zero frames the array is empty. |
| `AudioAnalyzer.TapSampleAt` | MetalCircle/AudioAnalyzer.swift:58-68 | For a buffer's channel data, the tap's array has channelCount × frameLength elements. Sample j of channel i is at index i·frameLength + j. |
| `AudioAnalyzer.TapBlock` | MetalCircle/AudioAnalyzer.swift:56-73 | If the analyzer is gone, nothing is delivered. If the channel data is nil, the block traps exactly when there are channels and frames. Otherwise `onUpdate`, when set, receives exactly the flattened array, of length channelCount × frameLength. |

## Left out

- Floating-point rounding: `Float(40/0.3)`, `0.3` and `25.0/512` are exact reals here. Float rounding could move results at the clamp edges by an ulp.
- `log10f`, `vDSP_DFT_Execute` and the square root of `vDSP_zvabs` are parameters, not definitions. Their numerical correctness is not modelled, and neither is a spectrum peak for a pure tone. `SpectrumOfSilence` assumes only that the DFT maps the zero signal to zero and that sqrt(0) = 0.
- NaN samples: samples are real numbers, so the model covers NaN only in the decibel step (`Loudness`).
- `vDSP_measqv` with zero frames: the model assumes that `val` keeps its initial 0, which makes the result silence (0.3).
- Creating the DFT setup (`vDSP_DFT_CreateSetup`): it is not part of the shown code. `execute` carries it, together with the assumption that it maps 1024 inputs to 1024 outputs.
- cos, sin and `to_radian` in `createVertexPoints`: a perimeter vertex records its angle in degrees instead of its coordinates.
- The Metal pipeline: command queue and buffers, `createPipelineState`, shaders, aspect ratio and the GPU side of `draw`. Only the vertex count and the buffer length are modelled.
- AVAudioEngine setup, file loading and playback (`setupAudio`, `start`, `stop`, `init` of `AudioAnalyzer`): I/O.
- `DispatchQueue.main.async`: concurrency. The model says what the closure hands to `onUpdate` when it runs.
- The SwiftUI and SceneKit views (`ContentView`, `AudioVisualizerView`, `MetalCircleView`, `SphereDeformable`) and `definitions.h`: UI, randomness and an unused declaration.
