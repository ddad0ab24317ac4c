# Interceptor camera calculator — a Dafny model

The application is a single Streamlit script that helps a drone pilot judge
whether an onboard camera can see, and resolve, a target. Its logic has two
parts, and both are modelled here.

- **Camera preset store** (`preset_store.dfy`, module `PresetStore`). The
  session holds a dictionary that maps a preset name to the sensor width,
  sensor height, focal length and horizontal resolution. The dictionary is
  seeded with four built-in presets the first time the script runs in a
  session. The "Guardar" button stores the edited values under a typed name,
  but only when that name is non-empty. The class `Session` holds the
  dictionary as a `map`. Its keys are also kept as a `seq`, in insertion
  order, because the preset selector lists them in that order. `EnsureSeeded`,
  `Names`, `Get` and `Save` are the script's operations on it.
- **Interception geometry** (`interception.dfy`, module `Interception`).
  These are pure functions over `real`:
  - the visible band (ceiling and floor) for a given pitch and vertical field
    of view;
  - the inclusive visibility test;
  - the slant distance;
  - the pixel footprint of the target;
  - the "Visible"/"Borroso" label, with its strict 15-pixel threshold;
  - the found/lost alert, with its "above the camera" caption.

  `Analyse` puts one whole run of the calculation block together.

The arc tangents, the degree conversion and the square root are not
evaluated. The vertical field of view and the target's bearing are inputs.
The slant distance is an input constrained by the defining equation of the
square root (`IsSqrt`: non-negative, and its square equals `dist² + h²`).
What remains is linear and rational arithmetic, plus the few nonlinear
facts proved in helper lemmas.

The script computes no margin for a target below the floor. It looks presets
up only by names its selector offers. It divides without guards. Divisions by
zero are therefore preconditions here, and no error values exist.

## Model

| member | source | states |
|---|---|---|
| `PresetStore.SeedNames` | app.py:24-29 | There are four built-in preset names, in literal order, pairwise distinct and all non-empty |
| `PresetStore.SeedPresets` | app.py:24-29 | The seed dictionary has exactly the four built-in names as keys, and every seeded profile has strictly positive width, height, focal length and resolution |
| `PresetStore.Session.constructor` | app.py:23 | A new session holds no preset dictionary |
| `PresetStore.Session.EnsureSeeded` | app.py:23-29 | If no dictionary exists, the session gets exactly the four presets in literal order; an existing dictionary, including saved presets, is left untouched |
| `PresetStore.Session.Names` | app.py:37 | The selector's choices are the dictionary's keys, each once, in insertion order |
| `PresetStore.Session.Get` | app.py:38 | Selecting a stored name yields exactly the profile stored under it |
| `PresetStore.Session.Save` | app.py:52-54 | A non-empty name afterwards maps to exactly `{w, h, f, r}`, whether it was new or already present; a new name is listed last; every other entry and its position is unchanged; an empty name changes nothing |
| `PresetStore.SaveThenReselect` | app.py:23-54 | Seeding, saving and rerunning: the selector offers the saved name exactly when it was non-empty, and selecting it returns the saved values |
| `Interception.ViewBand` | app.py:72-73 | The band is exactly `vfov` wide and centred on `-pitch`, so floor ≤ ceiling whenever `vfov ≥ 0` |
| `Interception.PitchShiftsBand` | app.py:72-73 | Raising the pitch by Δ lowers the ceiling and the floor by exactly Δ |
| `Interception.IsVisible` | app.py:74 | Visible iff the bearing is within half the vertical field of view of the optical axis at `-pitch` |
| `Interception.VisibleAtEdges` | app.py:74 | A target exactly at the ceiling or exactly at the floor is visible (inclusive at both ends) |
| `Interception.Report` | app.py:101-106 | "Found" iff visible; the caption appears iff the target is not visible and above the ceiling, and its value is then strictly positive and equals target minus ceiling; otherwise a lost target is below the floor |
| `Interception.Pixels` | app.py:77 | The footprint times `sensorW · slant` equals `res · size · focal`, with zero width or distance excluded |
| `Interception.PixelsPositive` | app.py:77 | With all inputs positive, the footprint is positive |
| `Interception.PixelsDecreaseWithDistance` | app.py:77 | With all inputs positive, the footprint is strictly decreasing in the distance |
| `Interception.SlantAtLeastDistance` | app.py:76 | A slant with slant ≥ 0 and slant² = dist² + h² is at least abs(dist), with equality iff h = 0 |
| `Interception.PixelsAtMostLevelEstimate` | app.py:76-77 | The footprint at the slant distance is at most the footprint at the horizontal distance, with equality iff the target is level |
| `Interception.PixelDelta` | app.py:96-98 | The label is "Visible" (in the normal colour) iff px > 15, strictly; otherwise it is "Borroso" (in the inverse colour) |
| `Interception.DetectableWhenNearer` | app.py:76-98 | A target labelled "Visible" at some distance stays "Visible" at any smaller distance |
| `Interception.Analyse` | app.py:67-106 | One run gives a band `vfov` wide and centred on `-pitch`; the slant it uses is the given root; visibility iff floor ≤ bearing ≤ ceiling; slant ≥ abs(dist) (equality iff level); a positive footprint for positive inputs; the label and colour of the 15 px threshold; "Found" iff visible, the caption iff not visible and above the ceiling (then positive), otherwise below the floor |
| `Interception.LevelTargetExample` | app.py:67-106 | For the Arducam preset (vfov 2·atan(4.2/8.56) ≈ 52.27), pitch 30 and a level target of 0.3 m at 50 m: ceiling −3.865, not visible, caption 3.865, between 21.35 and 21.36 px, labelled "Visible" |
| `Interception.SeededPresetsGivePositivePixels` | app.py:25-28 | Every built-in preset meets the calculation's divisor preconditions and, for a positive size and distance, gives a positive pixel footprint |

## Left out

- The horizontal field of view (app.py:67) is computed but never used afterwards, so it is not modelled. The vertical field of view (app.py:68) is an input.
- The arc tangents, `math.degrees` and `math.sqrt` are not modelled, because they are floating-point transcendental functions. The field of view and the bearing are inputs, and the square root is known only through its defining equation.
- No property of the field-of-view formula itself is stated, such as its growth with sensor size or its fall with focal length. It rests on the arc tangent, which is not modelled. For the same reason, nothing is stated about the bearing computed with `atan2`.
- IEEE floating-point rounding, NaN and infinities are not modelled. All quantities are exact reals.
- Division by zero is not modelled as a result. A zero focal length, a zero sensor width or a zero slant distance would raise an exception in the script, so these are preconditions of `Pixels` and `Analyse`.
- The widget ranges are not imposed: the pitch slider runs from 0 to 60, the distance slider from 5 to 200 and the height slider from −50 to 50. The functions accept any reals, which is wider than the script allows.
- Page configuration, CSS, widgets, metrics rendering and the matplotlib viewing-cone plot (app.py:8-20, 32-36, 39-51, 56-64, 79-95, 109-154) are presentation only.
- `st.rerun` (app.py:55) is represented only by calling `EnsureSeeded` again in `SaveThenReselect`. Streamlit's re-execution machinery is not modelled.
- `PresetStore.Session.Get` requires the name to be stored. The script only looks up names that the selector offers, so no missing-key path exists.
