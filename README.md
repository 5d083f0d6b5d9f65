# Star field flicker model

A Dafny model of the star-field background in `assets/js/starfield.js`.
`initStarfield` places 1000 stars in a spherical shell and gives each a
flicker profile (speed and phase offset). It packs their coordinates into a
position attribute and starts an opacity attribute at all ones. Every frame,
`animate` advances a shared clock by 0.016. It then rewrites every star's
opacity in the shared buffer as `0.4 + (sin(time·speed + offset)·0.5 + 0.5)·0.6`,
flags the buffer for upload, and copies the clock into the shader's `time`
uniform.

Files:

- `host_math.dfy`, module `HostMath`: the host functions the code calls.
  `Math.PI` is a real constant. `Math.sin`, `Math.cos` and `Math.acos` are
  function values in a `Trig` record that the caller supplies. The model
  assumes only what `SineBounded` (sine stays in [-1, 1]) and `Pythagorean`
  (sin² + cos² = 1) say about them, and only where a member asks for it.
  `Math.random()` results are supplied as a sequence of reals in [0, 1)
  (`IsDraw`, `AllDraws`).
- `starfield.dfy`, module `Starfield`:
  - the per-draw formulas of the generation loop, with their ranges;
  - the generation loop itself (`GenerateStars`);
  - the opacity formula (`FlickerFactor`, `FlickerOpacity`) and the
    whole-buffer frame (`Frame`);
  - the class `Starfield`, which holds the state `initStarfield` sets up and
    `animate` updates.

The draws are consumed six per star, in the order the loop body calls
`Math.random()`: phi, theta, radius, intensity, speed, offset (`StarDraws`).
The positions and flicker profiles are `const` fields of `Starfield`, so no
frame can change them. The opacity buffer is a `const` reference to an
`array<real>` of length 1000 whose contents `Step` overwrites in place.
`Step`'s update loop is framed with `modifies opacities`. So the loop
provably touches nothing but the buffer, and setting the dirty flag, the
recorded upload and the uniform write happen after it.

The ghost field `uploads` records the buffer contents each time the
attribute is flagged for upload. `Step` appends exactly one entry, the
complete new frame, which models "flagged once per frame, after the loop".
The ghost field `frames` counts frames, and `Valid()` keeps
`time == frames · 0.016`.

The code has no star-count parameter: both loops count to the literal 1000.
The model therefore has no invalid-count error path. The code also never
clamps the opacity; the bounds hold without a clamp, so none is modelled.

## Model

| member | source | states |
|---|---|---|
| `Starfield.Angle` | assets/js/starfield.js:13 | a draw in [0, 1) scaled by π·2 lies in [0, 2π); used for `phi` (line 13) and for `offset` (line 25) |
| `Starfield.AcosArgument` | assets/js/starfield.js:14 | the argument `r·2 − 1` handed to `Math.acos` lies in [−1, 1), inside the domain of the arc cosine |
| `Starfield.Radius` | assets/js/starfield.js:15 | a star's radius `800 + r·200` lies in [800, 1000) |
| `Starfield.Speed` | assets/js/starfield.js:24 | a star's flicker speed `0.5 + r·1.5` lies in [0.5, 2.0) |
| `Starfield.StarDraws` | assets/js/starfield.js:12-25 | star `i` consumes exactly the six draws at positions 6i … 6i+5, all of them in [0, 1) |
| `Starfield.StarFlicker` | assets/js/starfield.js:22-26 | the pushed flicker record has intensity in [0, 1), speed in [0.5, 2.0) and offset in [0, 2π) |
| `Starfield.StarPosition` | assets/js/starfield.js:13-19 | each star contributes exactly three coordinates, x, y, z, from its phi, theta and radius draws |
| `Starfield.StarOnShell` | assets/js/starfield.js:13-18 | when sin² + cos² = 1, x² + y² + z² of every star lies in [800², 1000²): every star lies in the shell |
| `Starfield.GenerateStars` | assets/js/starfield.js:9-27 | from 6000 draws the loop builds exactly 3000 coordinates and 1000 flicker records; star i's triple at positions 3i … 3i+2 and its record are the ones its own draws give; every speed is in [0.5, 2.0) and every offset in [0, 2π) |
| `Starfield.FlickerFactor` | assets/js/starfield.js:106 | for a sine value in [−1, 1], `s·0.5 + 0.5` lies in [0, 1], reaching 0 exactly at −1 and 1 exactly at 1 |
| `Starfield.FlickerOpacity` | assets/js/starfield.js:105-107 | for a bounded sine, a star's opacity lies in [0.4, 1.0], as the source comment states; it is 0.4 exactly when the sine is −1 and 1.0 exactly when it is 1 |
| `Starfield.Frame` | assets/js/starfield.js:103-108 | the buffer computed for a clock value has one entry per profile and every entry in [0.4, 1.0] |
| `Starfield.Starfield.Generate` | assets/js/starfield.js:12-36 | the positions and profiles are what the generation loop builds from the draws; the opacity buffer is fresh and holds 1000 ones; clock and uniform start at 0 (lines 41 and 94); nothing has been uploaded yet |
| `Starfield.Starfield.Step` | assets/js/starfield.js:100-112 | time grows by exactly 0.016; the buffer afterwards equals `Frame(time, flicker)`, a function of the new clock and the unchanged profiles alone, so recomputing at the same clock gives the same buffer; exactly one upload is recorded, holding the complete frame; the flag is set and the uniform equals the new clock; `Valid()` is kept, so the buffer stays 1000 long with every entry in [0.4, 1.0] and time stays `frames · 0.016` |

## Left out

- Three.js scene, materials, shader source, `Points`, lights, camera and renderer construction (assets/js/starfield.js:3-8, 39-69, 72-92): foreign library calls with nothing of the code's own to verify.
- `renderer.render(scene, camera)` (assets/js/starfield.js:114): a foreign call; `Step` stops before it.
- The `requestAnimationFrame` self-scheduling (assets/js/starfield.js:98) and the first `animate()` call (line 116): the model has one `Step` call per frame instead of the host loop.
- The resize listener (assets/js/starfield.js:119-123): it only forwards the window size into library setters.
- `createStarTexture` (assets/js/starfield.js:127-143): canvas drawing.
- The DOM-ready dispatch (assets/js/starfield.js:146-150): page lifecycle.
- IEEE double behaviour of `Math.sin`, `Math.cos`, `Math.acos` and of the arithmetic, and `Float32Array` rounding of the stored values: the model uses exact reals. The trigonometric functions are parameters constrained only by `SineBounded` and `Pythagorean`.
- `Math.random` itself: its results are an input sequence of reals in [0, 1).
- The uniform-on-sphere distribution of the positions and the periodicity of each star's flicker: one is a statistical claim, and the other needs sine's periodicity, which the abstract sine does not have.
- The `intensity` field (assets/js/starfield.js:23) is recorded in each profile but has no behaviour.
- videoMaker.py is not part of this model: it composites video clips with an external library.
