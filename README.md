# feed-master: configuration defaulting

This project models the defaulting step of feed-master's processor (Go
package `proc`). A `Processor` holds a pointer to a `Conf`, which has a feed
list and a `System` block of global limits. The limits are the update
interval (a `time.Duration`), the per-feed item limit, the total item limit,
the number of items kept in the database, and the number of feeds fetched
concurrently. The block also has a base URL. Before the processor runs,
`setDefaults` fills in, in place, every one of the five numeric settings
that is exactly zero:

| setting | default |
|---|---|
| `UpdateInterval` | 5 minutes (300 000 000 000 ns) |
| `MaxItems` | 5 |
| `MaxTotal` | 100 |
| `MaxKeepInDB` | 5000 |
| `Concurrent` | 8 |

`BaseURL` and `Feeds` are never defaulted.

The implementation of `setDefaults` is not part of this model. Only its
test table, `app/proc/processor_test.go`, is, and the model is written
against what that table asserts. Everything is in `proc.dfy`, module `Proc`:

- `System` is a datatype for Go's value-typed `System` struct. `Conf` and
  `Processor` are classes, because the test shares the `*Conf` between its
  table and the `Processor` and inspects it after the call.
- `Processor.SetDefaults` changes only the `Conf` object the processor
  already points to. It does so with one conditional assignment per setting.
- `Normalize` is the same step as a pure function. The table is stated once
  in `DefaultFor`, one entry per `Setting`.
- The lemmas about `Normalize` state field independence, idempotence, the
  fixed points, the single-zero rows of the table for all values of the
  other fields, and the concrete test rows.
- `ApplySteps` performs the per-setting conditional assignments in any given
  order. `AnyOrderNormalizes` shows every order that covers all five
  settings gives `Normalize`. So the order chosen in `SetDefaults`, which is
  declaration order, does not matter.

Go's `int` (on 64-bit targets) and `time.Duration` are both 64-bit: they are
modelled by the `Int64` newtype. The step only compares values with zero and
assigns constants that fit, so no wrap-around can occur.

Only an exact zero triggers a default; negative values pass through
unchanged. So the result never has a zero setting, and it has a positive
setting wherever the input was non-negative. It is not positive in general.

## Model

| member | source | states |
|---|---|---|
| `Proc.DefaultFor` | app/proc/processor_test.go:18-221 | every default in the table is positive: 5 minutes, 5, 100, 5000 and 8 |
| `Proc.Set` | app/proc/processor_test.go:22-29 | overwriting one setting of the block changes that setting only; every other setting and `BaseURL` keep their values |
| `Proc.SystemExtensionality` | app/proc/processor_test.go:270 | two blocks are equal exactly when all five settings and `BaseURL` agree, which is the deep comparison the test makes |
| `Proc.Normalize` | app/proc/processor_test.go:18-262 | a zero setting takes its table default, a non-zero one (negative included) is kept, no setting of the result is zero, a non-negative input setting ends positive, and `BaseURL` is unchanged |
| `Proc.FieldIndependence` | app/proc/processor_test.go:18-221 | the outcome of a setting depends on that setting's input value alone |
| `Proc.NormalizeIdempotent` | app/proc/processor_test.go:223-270 | normalizing a normalized block changes nothing |
| `Proc.NormalizeFixedPoint` | app/proc/processor_test.go:223-261 | a block comes out identical if and only if none of its five settings is zero |
| `Proc.OnlyZeroSettingChanges` | app/proc/processor_test.go:18-221 | when exactly one setting is zero, the result is the input with just that setting replaced by its default, whatever the other values are |
| `Proc.DefaultSetting` | app/proc/processor_test.go:269 | one conditional assignment: the named setting is defaulted if zero, and every other setting and `BaseURL` are untouched |
| `Proc.ApplyStepsDefaults` | app/proc/processor_test.go:269 | after the conditional assignments for a list of settings, a setting holds its default exactly when it was zero and is in the list, and otherwise keeps its value; `BaseURL` is unchanged |
| `Proc.AnyOrderNormalizes` | app/proc/processor_test.go:269 | performing the per-setting assignments in any order, with repeats, gives the whole defaulting step as long as all five settings are covered |
| `Proc.SetDefaultsTable` | app/proc/processor_test.go:18-262 | the six rows of the test table: each single zero setting becomes 8, 5, 100, 5000 or 5 minutes with the rest unchanged, and an all-non-zero block with a base URL comes out identical |
| `Proc.Conf.constructor` | app/proc/processor_test.go:21-37 | a new configuration holds exactly the given feed list and block |
| `Proc.Processor.constructor` | app/proc/processor_test.go:266-268 | a new processor points to the given configuration object |
| `Proc.Processor.SetDefaults` | app/proc/processor_test.go:264-272 | the processor keeps the same `Conf` object, whose feed list is unchanged and whose block becomes the defaulted block, in declaration order; a second call would change nothing |

## Left out

- The implementation of `setDefaults`: it is not part of this model. The
  model follows the test table at app/proc/processor_test.go:9-273, so
  anything `setDefaults` does that the table does not check is missing.
- Negative settings: no test row has one. The model treats only an exact
  zero as unset and passes negative values through; nothing stronger is claimed.
- `Feeds`: modelled as a sequence of an uninterpreted type `Feed`, since
  defaulting never looks at or changes it. Go's distinction between a nil
  slice and an empty one is not represented.
- YAML decoding, and the struct tags `update`, `max_per_feed`, `max_total`,
  `max_keep`, `concurrent` and `base_url`. These belong to an external
  decoding library.
- The test harness: `t.Run`, the loop over the table, and `assert.Equal`.
  The deep comparison is captured by datatype equality.
- The rest of the processor: feed fetching, concurrency bounded by
  `Concurrent`, storage and retention, and HTTP serving. None of it is part
  of this model, and all of it is I/O or concurrency.
