# SectorizedRadialProfile: construction of `CalculateRadialProfile`

This project models the constructor of the `CalculateRadialProfile` class of SectorizedRadialProfile,
a small Python package meant to compute radial intensity profiles of an image inside an angular
sector around a center. The constructor takes three arguments, all optional:

- `data`, the image;
- `center`, a mapping that should hold the keys `x0` and `y0`;
- `angle_range`, a mapping that should hold the keys `from` and `to`.

It stores the three arguments as attributes. When `center` is non-empty, it looks up `x0` and then
`y0` and copies them to the attributes `x0` and `y0`. When `angle_range` is non-empty, it looks up
`from` and then `to` and copies them to `from_angle` and `to_angle`. A missing key raises
`ValueError`. An empty mapping skips its block, and the two attributes of that block are never
assigned.

The model has two parts, both in `calculate_radial_profile.dfy` (module `SectorizedRadialProfile`):

- A reference definition on values. `Construct` gives the attributes of the new object, or the
  error, as a `Profile` value. An attribute that is never assigned is `None`. `Consistent` is the
  independent description of a successful construction: each copied attribute is unassigned when
  its mapping is empty and otherwise equals the mapping's entry. `LookUp` and `TryLookUp` model the
  key lookups of one guarded block.
- The object itself, `CalculateRadialProfile`, a class whose fields are the attributes. `Blank` is
  the freshly allocated object. `Init` is `__init__`, assigning the fields step by step and
  returning `Fail(ValueError)` where the source raises. `New` is the call expression
  `CalculateRadialProfile(data, center, angle_range)`: it allocates, initialises, and yields the
  object or the error. `NewDefault` is the call with no arguments.

`wrappers.dfy` holds the `Option`, `Result` and `Outcome` datatypes.

The image is a sequence of an arbitrary element type `D`, because the constructor stores it and never
looks at it. The values in the mappings have an arbitrary type `V`. Python's test of a dict's
truth is modelled as the mapping being non-empty.

The package describes itself as computing the "radial profile of a given sector of an 2D array"
(`setup.py:24`), but the class in `sectorizedradialprofile/calculate_radial_profile.py` contains
only the constructor and defines no computation method: `notebooks/pract.py:17` calls a `calculate`
method that the class does not have. This model follows the code.

## Model

| member | source | states |
|---|---|---|
| `SectorizedRadialProfile.LookUp` | sectorizedradialprofile/calculate_radial_profile.py:25-26 | Subscripting a mapping with keys in order succeeds exactly when every key is present, and then yields each key's value in order. Otherwise it fails with the first missing key. |
| `SectorizedRadialProfile.TryLookUp` | sectorizedradialprofile/calculate_radial_profile.py:23-30 | A guarded block skips an empty mapping. It succeeds on a non-empty one exactly when all its keys are present, and then yields their values. Any other case is ValueError. |
| `SectorizedRadialProfile.Construct` | sectorizedradialprofile/calculate_radial_profile.py:6-40 | Construction succeeds exactly when each mapping is empty or holds both of its keys. The only error is ValueError. On success the three arguments are stored unchanged and the copied attributes are `Consistent` with the mappings. |
| `SectorizedRadialProfile.CalculateRadialProfile.Blank` | sectorizedradialprofile/calculate_radial_profile.py:4 | A freshly allocated object has none of `x0`, `y0`, `from_angle` and `to_angle` assigned. Its `data`, `center` and `angle_range` hold placeholders that `__init__` overwrites before any step can fail. |
| `SectorizedRadialProfile.CalculateRadialProfile.Init` | sectorizedradialprofile/calculate_radial_profile.py:6-40 | `__init__` passes exactly when `Construct` succeeds, and otherwise fails with ValueError. It always stores the three arguments. `x0`/`y0` are assigned exactly when `center` is non-empty and holds both keys. `from_angle`/`to_angle` are assigned exactly when construction passes with a non-empty `angle_range`. An attribute that is not assigned keeps its old value. |
| `SectorizedRadialProfile.CalculateRadialProfile.New` | sectorizedradialprofile/calculate_radial_profile.py:6-40 | The constructor call yields a fresh object exactly when `Construct` succeeds, and ValueError otherwise. When it returns, the new object's attributes are `Construct`'s profile, so `Valid` holds at that moment. |
| `SectorizedRadialProfile.CalculateRadialProfile.NewDefault` | sectorizedradialprofile/calculate_radial_profile.py:6-21 | The call with no arguments always succeeds. It stores an empty image and two empty mappings and assigns neither coordinates nor sector bounds. |
| `SectorizedRadialProfile.LookUpIgnoresOtherKeys` | sectorizedradialprofile/calculate_radial_profile.py:25-26 | An extra entry under a key that is not looked up leaves the lookup's result unchanged. |
| `SectorizedRadialProfile.DefaultConstruction` | tests/sectorizedradiaprofile/test_calculate_profile.py:15-20 | With every argument defaulted, construction succeeds with `data == []`, `center == {}` and `angle_range == {}`, and nothing else is assigned. |
| `SectorizedRadialProfile.ConsistentIsConstructed` | sectorizedradialprofile/calculate_radial_profile.py:19-38 | Every consistent set of attributes is exactly the result of constructing from its own stored arguments. A successful construction is therefore determined by its arguments, and fields are assigned iff their mapping is non-empty. |
| `SectorizedRadialProfile.ValuesUnchecked` | sectorizedradialprofile/calculate_radial_profile.py:23-38 | Any values under `x0`, `y0`, `from` and `to` are accepted and copied as they are. There is no range or ordering check on the sector bounds. |
| `SectorizedRadialProfile.ExtraCenterKeyIgnored` | sectorizedradialprofile/calculate_radial_profile.py:23-28 | An extra key in a non-empty `center` changes neither whether construction succeeds nor `x0`/`y0`. |
| `SectorizedRadialProfile.ExtraAngleRangeKeyIgnored` | sectorizedradialprofile/calculate_radial_profile.py:33-38 | An extra key in a non-empty `angle_range` changes neither whether construction succeeds nor `from_angle`/`to_angle`. |
| `SectorizedRadialProfile.CenterWithoutY0Rejected` | tests/sectorizedradiaprofile/test_calculate_profile.py:61-65 | The center `{'x0': 10, 'x1': -1}` is rejected with ValueError. |
| `SectorizedRadialProfile.AngleRangeWithoutToRejected` | tests/sectorizedradiaprofile/test_calculate_profile.py:67-71 | The angle range `{'from': 10, 'too': 20}` is rejected with ValueError. |

## Left out

- The radial-profile computation that `setup.py:24` describes is not in the class's source, so it is not modelled.
- `notebooks/pract.py` is not part of this model. It is a plotting script, and it passes a `radius` argument and calls a `calculate` method that the class does not define.
- `setup.py` is not part of this model. It holds packaging metadata only.
- The image's contents and its numpy array type are not modelled. The image is an opaque sequence, because the constructor only stores it.
- CalculateRadialProfile.New: does not model that the stored `center` and `angle_range` are the caller's own dict objects. In Python a later change through the caller's reference also changes the stored mapping but not the copied `x0`, `y0`, `from_angle` or `to_angle`, so `Valid` is promised only when construction returns. Maps are values in Dafny, so the model has no such aliasing.
- The sharing of one mutable default list and dict between calls is not modelled. Each default is a fresh empty value, because sequences and maps are values in Dafny.
- Arguments that are not mappings are not modelled. With such arguments, Python's bare `except` also turns a `TypeError` into `ValueError`; here the arguments are always maps.
- The exception inside the `except` clause is not modelled. Python chains the original `KeyError` to the `ValueError`; here the error is `ValueError` alone.
- The docstring's `[0, 360[` range for angles is not enforced by the code, so the model does not enforce it either.
