# Backlight module of polybar, modelled in Dafny

This project models the backlight module of the polybar status bar. The module
watches a device's `brightness` file, derives a percentage from it and the
`max_brightness` file, and accepts two scroll commands (`backlight+`,
`backlight-`) that move the brightness by 50 raw units, clamped to
`[0, max]`, and write it back.

Files:

- `tokens.dfy` (module `BacklightTokens`): the format tags `<label>`, `<bar>`,
  `<ramp>` and the command strings, with the closed `Tag` and `Command`
  variants they name.
- `brightness.dfy` (module `Brightness`): the arithmetic on exact reals. It
  covers C++ `int(x)` truncation, the clamp of a scroll step, the value a
  command stores, series of commands, and the round-half-up percentage.
- `backlight.dfy` (module `Backlight`): the state. `FileSystem` maps each
  existing path to the number its text parses to. `BrightnessHandle` carries
  only a path, as in the header. `BacklightModule` holds the two handles, the
  cached maximum `maxVal` and `percentage`. Its `OnEvent` and `Input` update
  the percentage and the brightness file in place. `Create` is the
  constructor, which throws when a file is missing. `Walkthrough` replays a
  device with maximum 200 from value 100 through three increases.
- `wrappers.dfy` (module `Wrappers`): `Option`, `Result` and `Outcome`.

Three behaviours of the code worth knowing:

- The percentage is not clamped to `[0, 100]`. A value above the maximum
  gives more than 100 (`PercentageNotClamped`).
- The event handler divides by a fresh read of the maximum file. Only the
  command handler uses the maximum cached at start-up. So the model keeps
  the maximum file's value and `maxVal` apart.
- The percentage is `int(val / max * 100 + 0.5)`: the cast truncates toward
  zero. For non-negative values this equals round-half-up
  (`PercentageIsRoundHalfUp`).

## Model

| member | source | states |
|---|---|---|
| `BacklightTokens.TagNamesDistinct` | include/modules/backlight.hpp:35-37 | the three tag strings are pairwise distinct, so a tag string names at most one element |
| `BacklightTokens.CommandNamesDistinct` | include/modules/backlight.hpp:39-40 | the two command strings differ, so a command selects at most one branch of the input handler |
| `Brightness.Truncate` | src/modules/backlight.cpp:33 | `int(x)` converts toward zero: for `x >= 0` the result is the greatest integer not above `x`, for `x < 0` the least integer not below it |
| `Brightness.TruncateNonNegativeIsFloor` | src/modules/backlight.cpp:33 | on the non-negative values the write path sees, the truncation is the floor |
| `Brightness.TruncateWhole` | src/modules/backlight.cpp:33 | a whole number is written back unchanged |
| `Brightness.Delta` | src/modules/backlight.cpp:121-126 | the increase step is +50 and the decrease step is -50 |
| `Brightness.Clamp` | src/modules/backlight.cpp:132-136 | with a non-negative maximum the clamped value is `min(max(cur, 0), maxVal)`, which lies in `[0, maxVal]`, and values already in range are kept; with a negative maximum it is 0 below zero and the maximum otherwise |
| `Brightness.Stored` | src/modules/backlight.cpp:131-137 | the value a command writes is a whole number, and it lies in `[0, maxVal]` when the maximum is non-negative |
| `Brightness.IncreaseStoresMin` | src/modules/backlight.cpp:121-137 | an increase stores the floor of `min(val + 50, maxVal)` |
| `Brightness.DecreaseStoresMax` | src/modules/backlight.cpp:124-137 | from a value inside the range, a decrease stores the floor of `max(val - 50, 0)` |
| `Brightness.IncreaseAtMaximumIsFixed` | src/modules/backlight.cpp:131-137 | an increase at a whole-valued maximum leaves the value unchanged |
| `Brightness.DecreaseAtZeroIsFixed` | src/modules/backlight.cpp:131-137 | a decrease at 0 leaves 0, whatever the maximum |
| `Brightness.RunStaysInRange` | src/modules/backlight.cpp:131-137 | after any non-empty series of commands with a non-negative maximum, the value lies in `[0, maxVal]` |
| `Brightness.RunPreservesRange` | src/modules/backlight.cpp:131-137 | a series of commands that starts in `[0, maxVal]` stays in it, including the empty series |
| `Brightness.RepeatedIncrease` | src/modules/backlight.cpp:121-137 | `n` increases from a whole value in range end at `min(val + 50 n, maxVal)` |
| `Brightness.RepeatedDecrease` | src/modules/backlight.cpp:124-137 | `n` decreases from a whole value in range end at `max(val - 50 n, 0)` |
| `Brightness.ThirtyIncreasesSaturate` | src/modules/backlight.cpp:131-137 | thirty increases from 0 with maximum 100 end at exactly 100 |
| `Brightness.Percentage` | src/modules/backlight.cpp:74 | for a non-negative value the percentage is non-negative and is the integer within one half of `val / max * 100`, with halves rounded up |
| `Brightness.PercentageIsRoundHalfUp` | src/modules/backlight.cpp:74 | for a non-negative value the percentage is `floor(val / max * 100 + 1/2)` |
| `Brightness.PercentageInRange` | src/modules/backlight.cpp:74 | a value in `[0, max]` gives a percentage in `[0, 100]` |
| `Brightness.PercentageMonotone` | src/modules/backlight.cpp:74 | a larger non-negative value never gives a smaller percentage |
| `Brightness.PercentageEnds` | src/modules/backlight.cpp:74 | value 0 gives 0 and value equal to the maximum gives 100 |
| `Brightness.PercentageHalf` | src/modules/backlight.cpp:74 | value 100 against maximum 200 gives 50 |
| `Brightness.PercentageNotClamped` | src/modules/backlight.cpp:74 | a value at or above the maximum gives at least 100, and twice the maximum gives 200 |
| `Backlight.BrightnessHandle.constructor` | include/modules/backlight.hpp:14-21 | a fresh handle carries only a path, and that path is empty until it is bound |
| `Backlight.BrightnessHandle.Read` | src/modules/backlight.cpp:25-27 | a bound path yields the number its file parses to; a missing file yields 0 |
| `Backlight.BrightnessHandle.Filepath` | src/modules/backlight.cpp:18-23 | binding succeeds exactly when the path exists and then records it; otherwise it fails with the "does not exist" message and keeps the old path |
| `Backlight.BrightnessHandle.Write` | src/modules/backlight.cpp:29-36 | an opened file is rewritten with the truncated value, which a later read returns; nothing else changes; a file that cannot be opened is left as it was |
| `Backlight.ParseCommand` | src/modules/backlight.cpp:121-129 | a recognised command is the one whose string was given; a string matching neither command yields none |
| `Backlight.Build` | src/modules/backlight.cpp:104-114 | a handled tag is the element whose tag string was given; any string that is not one of the three tags is not handled |
| `Backlight.BacklightModule.constructor` | include/modules/backlight.hpp:46-51 | the module starts with the maximum file's value cached and percentage 0 |
| `Backlight.Create` | src/modules/backlight.cpp:38-63 | start-up succeeds exactly when both files exist; on failure it names the first missing file; on success both handles are bound, the maximum is cached, the percentage is 0, and no file changes |
| `Backlight.BacklightModule.OnEvent` | src/modules/backlight.cpp:69-82 | the percentage becomes `Percentage(current, maximum file)`, which is in `[0, 100]` when the current value is in `[0, max]`; the cached maximum is unchanged |
| `Backlight.BacklightModule.Input` | src/modules/backlight.cpp:117-141 | the command is handled exactly when it is `backlight+` or `backlight-`. An unrecognised command changes nothing. A recognised one writes `Stored(old value, maxVal, command)` to the brightness file and nothing else, and that value is in `[0, maxVal]` when `maxVal >= 0`. The percentage and the cached maximum never change |

## Left out

- Change notification (the inotify watch at src/modules/backlight.cpp:62 and event delivery). An event is a plain call of `OnEvent`. Writes by other processes are arbitrary changes to `FileSystem` between calls.
- `idle()` (src/modules/backlight.cpp:65-67): it only sleeps 75 ms.
- Text parsing with `strtof` (src/modules/backlight.cpp:26): each file is stored as the number its text parses to. `file_util` is not part of this model. A file that cannot be read is taken to yield 0, the value `strtof` gives for empty text.
- Floating-point rounding: `float` and `double` are exact reals. The `int` cast of a value outside the `int` range is undefined in C++ and is not modelled.
- `BacklightModule.OnEvent`: requires the maximum file's value to be positive. With a zero maximum, the `float` division gives an infinity or NaN whose `int` cast is undefined.
- The path template (`PATH_BACKLIGHT_VAL`, `PATH_BACKLIGHT_MAX` and the `%card%` substitution): the header that defines it is not part of this model. `Create` takes the two resolved paths.
- Configuration and format loading (src/modules/backlight.cpp:40-53), label token replacement (lines 76-79), `get_output` (lines 87-102) and logging. These are rendering and framework collaborators. `Build` returns only which element a tag renders, not the drawn node.
- Concurrent access by other threads: the model is sequential.
