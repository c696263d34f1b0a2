# cubehelix in Dafny

This project models `cmap` from `cubehelix.py`, a Matplotlib port of Dave
Green's "cubehelix" colour scheme (D. A. Green 2011, Bull. Astr. Soc. India
39, 289). `cmap` lays out an evenly spaced grid of 256 intensities and takes
a hue angle at each point. It warps the intensity with `gamma` and computes
red, green and blue from the three main equations. It then clips each channel
to [0,1], reverses the three channels if asked, and builds the breakpoint
dictionary `{'red': rr, 'blue': bb, 'green': gg}`. That dictionary is handed
to Matplotlib.

Everything is in one module, `CubeHelix` (`cubehelix.dfy`):

- `Config` holds the five keyword parameters, and `Default` holds their defaults (0.5, -1.5, 1.0, 1.2, False).
- `Numerics` holds `cos`, `sin` and the power `**` as function values. The model never looks inside them. The only facts it uses about the power are in `PowLaws`: `1**g == 1` for every `g`, and `0**g == 0` for every `g > 0`. Only the lemmas that need these facts require them.
- The elementwise numpy expressions (source lines 62-70) are functions over `seq<real>`: `Grid`, `Angles`, `Warped`, `Amplitudes`, `Reds`, `Greens`, `Blues`, and `RawChannels` to put them together.
- The masked in-place writes are methods on `array<real>`: `ClipAbove` for lines 73-75 and `ClipBelow` for lines 77-79.
- The reversal `a[::-1]` is the method `Reverse`. In numpy, `red[::-1]` is a reversed view on the clipped array's buffer, and the source rebinds each name to that view. `Reverse` returns a fresh reversed copy instead. Both behave the same here, because the unreversed array is never read or written again.
- The `for k` loop that appends to `rr`, `bb` and `gg` is the method `Tables`.
- `Cmap` is the whole function. It is proved equal to the specification function `Colormap`, and the lemmas state their properties about `Colormap`.

The source fixes the grid size at `nlev = 256` (line 59). `Cmap` uses that
constant (`Levels`). The specification functions and the lemmas take any
`n >= 2`, and for `n = 256` they describe the source exactly.

`pi` is modelled as the decimal `3.141592653589793`, the value Python prints
for `math.pi`. Every value is an exact real.

Where the docstring and the code disagree, the model follows the code. The
docstring describes `reverse` as "Will go from black to white" (lines 41-42).
But the code reverses a map that already runs from black to white, so the
reversed map runs from white to black. This matches the docstring's own
example on lines 23-24, and `WhiteToBlack` proves it. The code does not
validate the grid size, and neither does the model: the size is a constant.

## Model

| member | source | states |
|---|---|---|
| CubeHelix.Fraction | cubehelix.py:62 | Grid position k/(n-1) of an n-point grid. It is 0 at k = 0 and 1 at k = n-1, and it lies in [0,1] for every k < n. The same value is the table's x coordinate on lines 92-94. |
| CubeHelix.Grid | cubehelix.py:59-62 | The grid has exactly n points. It starts at exactly 0, ends at exactly 1, is strictly increasing, and every point lies in [0,1]. |
| CubeHelix.Amplitude | cubehelix.py:65 | The amplitude is 0 when the warped intensity is 0 or 1, and also when `hue` is 0. For `hue >= 0` and an intensity in [0,1], it lies between 0 and `hue/8`. |
| CubeHelix.RawChannels | cubehelix.py:62-70 | The three unclipped channels each have exactly n entries. Their values are stated by `RawChannelsAt`. |
| CubeHelix.RawChannelsAt | cubehelix.py:62-70 | Raw entry k of each channel is its main equation (`RedOf`, `GreenOf`, `BlueOf`). The angle there is `HueAngle` at the unwarped grid point k/(n-1), and the intensity is that point raised to `gamma`. This is the element-level fact behind the elementwise maps `Angles`, `Warped`, `Amplitudes`, `Reds`, `Greens` and `Blues`, which on their own only state that they preserve length. |
| CubeHelix.GammaOnlyWarpsIntensity | cubehelix.py:63-65 | For every gamma g, raw entry k is the main equation at intensity t**g and amplitude `Amplitude(hue, t**g)`, always at the angle of the unwarped grid point t = k/(n-1). The angle is therefore the same for every gamma. |
| CubeHelix.NoAmplitudeIsGrey | cubehelix.py:68-70 | With zero amplitude, all three main equations give the intensity itself. |
| CubeHelix.Clamp | cubehelix.py:73-79 | The two masked writes, applied in the source's order, send a value to [0,1]. A value above 1 becomes 1, a value below 0 becomes 0, and a value already in [0,1] is kept. |
| CubeHelix.ClampAll | cubehelix.py:73-79 | Clipping a channel is pointwise. Every entry ends up in [0,1], and entries already in [0,1] are unchanged. |
| CubeHelix.ClipAbove | cubehelix.py:73-75 | In place, every array entry above 1 becomes 1 and no other entry changes: the new contents are `ClipHighAll` of the old. |
| CubeHelix.ClipBelow | cubehelix.py:77-79 | In place, every array entry below 0 becomes 0 and no other entry changes: the new contents are `ClipLowAll` of the old. |
| CubeHelix.Reversed | cubehelix.py:83-85 | `s[::-1]` keeps the length. Its meaning is stated by `ReversedInvolution`, `ClampReverseCommute` and `ReverseLaw`. |
| CubeHelix.Reverse | cubehelix.py:82-85 | Returns a new array that holds the input's entries in reverse order. |
| CubeHelix.ReversedInvolution | cubehelix.py:83-85 | Reversing twice gives the original channel back. |
| CubeHelix.ClampReverseCommute | cubehelix.py:73-85 | Clamping a reversed channel gives the same result as reversing the clamped channel. |
| CubeHelix.ReverseBeforeClamp | cubehelix.py:73-85 | The reversed map is the same whether the raw channels are clamped and then reversed (the source's order) or reversed and then clamped. |
| CubeHelix.ToArray | cubehelix.py:68-70 | Each channel array is a new array whose contents are the computed sequence. |
| CubeHelix.FinalChannels | cubehelix.py:73-85 | Each channel is clamped on its own (`ClampChannels`) and, with `reverse`, read backwards in lockstep (`ReverseChannels`). Final entry k is the clamped raw value at index k, or at n-1-k when reversed. Every final value lies in [0,1]. |
| CubeHelix.ChannelArrays | cubehelix.py:61-85 | Computes the three channel arrays, clips them in place and reverses them if asked. Their contents equal `FinalChannels`. |
| CubeHelix.Table | cubehelix.py:88-94 | A channel's list has one entry per index. Entry k sits at grid point k/(n-1), and both of its values equal the channel value at k, so the map has no jumps. |
| CubeHelix.Tables | cubehelix.py:88-96 | The append loop gives each of `rr`, `bb` and `gg` exactly n entries, in order of increasing k, and entry k is `(k/(n-1), c[k], c[k])`. The dictionary pairs red, blue and green with their own lists. |
| CubeHelix.Colormap | cubehelix.py:59-96 | The specified dictionary has n entries in each of its red, blue and green lists. Its other properties are stated by `ColormapShape`, `ReverseLaw`, `BlackToWhite`, `WhiteToBlack` and `GreyRamp`. |
| CubeHelix.Cmap | cubehelix.py:59-96 | The whole function returns exactly the specified dictionary for the 256-point grid. |
| CubeHelix.ColormapShape | cubehelix.py:59-96 | All three lists share the x coordinates k/(n-1). These run from 0 to 1 and strictly increase. Every red, green and blue value lies in [0,1], and each entry's two values agree. |
| CubeHelix.ReverseLaw | cubehelix.py:82-94 | With `reverse`, the colour at entry k is the unreversed map's colour at entry n-1-k, for all three channels in lockstep. The x coordinates do not change. |
| CubeHelix.BlackToWhite | cubehelix.py:63-70 | For `gamma > 0` and any `start`, `rot` and `hue`, the unreversed map begins at black (0,0,0) and ends at white (1,1,1). This is the docstring's promise on lines 15-17. |
| CubeHelix.WhiteToBlack | cubehelix.py:82-85 | For `gamma > 0`, the reversed map begins at white and ends at black. |
| CubeHelix.DefaultBlackToWhite | cubehelix.py:6 | With the default parameters, the 256-entry map runs from black at entry 0 to white at entry 255. |
| CubeHelix.GreyRamp | cubehelix.py:65-79 | With `hue = 0`, all three channels agree at every entry. Each equals the clamped intensity (mirrored when reversed), and the intensity itself where it already lies in [0,1]. |

## Left out

- The Matplotlib `LinearSegmentedColormap` built from the dictionary (lines 2 and 97), and its interpolation between breakpoints. The model returns only the dictionary of three breakpoint lists.
- The numeric values of `np.cos`, `np.sin` and `fract**gamma` are left out: they are floating-point transcendental functions. They are parameters, and the power is constrained only by `PowLaws`. As a result, nothing is proved about how the intensity varies with `gamma`.
- IEEE rounding (including `float(k)/(nlev-1.)` and `math.pi`) is left out, and so is NaN behaviour in the masked comparisons. All values are exact reals.
- numpy's vectorisation is modelled only as elementwise maps over sequences. numpy views are not modelled: the reversed view of lines 83-85 is a fresh copy in the model. No difference can be observed, because the original array is not used after it is rebound.
- BlackToWhite: requires `gamma > 0`, because `0**gamma == 0` holds only there. For `gamma == 0`, Python gives `0.0**0 == 1.0` and the first entry is white.
