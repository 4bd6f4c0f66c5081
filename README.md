# Feature-window fill callback of the Edge Impulse / Golioth accelerometer example

This Dafny project models `sample_accel`, the callback through which the Edge
Impulse classifier pulls its input (`signal_t.get_data`), together with the
static `readings` buffer it fills. The callback works like this:

- A `length` above the frame size `EI_CLASSIFIER_DSP_INPUT_FRAME_SIZE` is rejected with 1.
- Otherwise a counter `i` steps by 3 from 0 while `i < length`.
- Each step fetches one ADXL362 sample and writes its converted x, y and z
  into `readings[i]`, `readings[i + 1]` and `readings[i + 2]`.
- A failed fetch returns 1 at once.
- After the loop, the first `length` values of `readings` are copied into the
  caller's buffer and the callback returns 0.

Files:

- `sensor.dfy` (module `Sensor`) models the sensor.
  - `SensorValue` is Zephyr's `struct sensor_value`.
  - `ToFloat` is `sensor_value_to_float`.
  - `Reading` holds one x, y, z sample.
  - `Accelerometer` is the device. It has a fixed `feed` that says what the
    k-th fetch delivers, and it counts its fetches. Every property therefore
    holds for every behaviour of the driver.
- `feature_window.dfy` (module `FeatureWindow`) models the callback.
  - `Collector` is a class that owns the `readings` array and the
    accelerometer.
  - Its method `SampleAccel` is proved against the function `SampleAccelSpec`,
    which describes the whole effect of one call: the return code, the new
    `readings`, the new caller buffer and the number of fetches.
  - The remaining lemmas state what `sample_accel` promises in terms of that
    function.

The code and the design description of this component disagree on three points.
The model follows the code:

- The design says the window is filled starting at `offset`. The code ignores
  `offset`: it writes from index 0 and copies from index 0. `SampleAccel`
  takes `offset`, and its contract does not mention it.
- The design says a `length` that is not a multiple of 3 is rejected. The code
  checks only `length > EI_CLASSIFIER_DSP_INPUT_FRAME_SIZE`. In the code, a
  length such as 4 fetches two samples and writes six values.
- The design says a failed fill performs no partial writes. The code leaves
  the triples fetched before the failure in `readings`
  (`FailureAbortsAtFirstError`).

The exact condition under which the loop stays inside `readings` is
`3 * ceil(length / 3) <= frameSize`, or that the guard rejects `length`
first (`WritesFit`). `GuardSufficientIffFrameOfTriples` proves that the guard
alone suffices for every length exactly when the frame size is a multiple of 3.
This is what the design requires of the frame size, so no `length % 3 == 0`
precondition is needed.

## Model

| member | source | states |
|---|---|---|
| FeatureWindow.Collector.SampleAccel | src/main.cpp:41-72 | one call returns the code of `SampleAccelSpec` and leaves `readings`, the caller's buffer and the fetch count exactly as that function says, whatever `offset` is; writes stay inside `readings` given `WritesFit` |
| FeatureWindow.Collector.Fill | src/main.cpp:48-69 | the loop makes one fetch per step of 3, stops at the first failed fetch, and reports success exactly when all ceil(length/3) fetches succeed; afterwards `readings` holds the delivered samples as triples from index 0 and its old values beyond them; loop invariant: `i` is 3 times the number of samples stored and never exceeds 3 * ceil(length/3) |
| FeatureWindow.Collector.StoreSample | src/main.cpp:63-65 | the three stores of one step put the converted x, y and z of the sample at `i`, `i+1` and `i+2`, extending the filled prefix by one triple and changing nothing else |
| FeatureWindow.Copy | src/main.cpp:70 | the `memcpy` makes the first `length` values of the destination equal to those of `readings` and leaves the rest of the destination as it was |
| Sensor.Accelerometer.SampleFetch | src/main.cpp:51-62 | a fetch followed by the three channel reads yields the next entry of the driver's feed and advances the fetch count by one |
| FeatureWindow.SamplesFor | src/main.cpp:48-66 | the loop's step count for `length` is ceil(length/3): the least n with 3n >= length |
| FeatureWindow.GuardSufficientIffFrameOfTriples | src/main.cpp:43-66 | the length guard keeps every write `readings[i+2]` in bounds for all lengths if and only if the frame size is a multiple of 3 |
| FeatureWindow.Flatten | src/main.cpp:63-65 | the values written for n samples are 3n floats |
| FeatureWindow.FlattenAt | src/main.cpp:63-65 | value 3k, 3k+1 and 3k+2 of the written values are the converted x, y and z of sample k |
| FeatureWindow.OverwriteAt | src/main.cpp:63-65 | after the samples are written from index 0, triple k of the buffer is sample k |
| FeatureWindow.OverwriteNext | src/main.cpp:63-66 | writing the next sample's three values at `i` extends the overwritten prefix by that sample and leaves the rest of the buffer |
| FeatureWindow.Leading | src/main.cpp:49-56 | the samples a call receives are those of consecutive fetches from the sensor's current fetch number, at most ceil(length/3) of them; if fewer, the fetch after the last one failed |
| FeatureWindow.DeliveredRunExtends | src/main.cpp:51-62 | a successful fetch extends the run of delivered samples by its reading |
| FeatureWindow.LeadingIsMaximalRun | src/main.cpp:49-56 | a run of delivered samples that reaches the bound or ends at a failed fetch is exactly the samples the loop receives |
| FeatureWindow.OverwriteLeading | src/main.cpp:49-65 | triple k of the filled buffer holds the sample of the k-th fetch of the call, for every fetch that succeeded |
| FeatureWindow.SampleAccelSpec | src/main.cpp:41-72 | the return code is 0 or 1, and both buffers keep their sizes |
| FeatureWindow.GuardRejectsUntouched | src/main.cpp:43-47 | a length above the frame size returns 1 with no fetch and with `readings` and the caller's buffer unchanged |
| FeatureWindow.SuccessIffAllFetchesSucceed | src/main.cpp:43-71 | the call returns 0 if and only if the length passes the guard and each of the ceil(length/3) fetches succeeds |
| FeatureWindow.SuccessCopiesPrefix | src/main.cpp:49-71 | on success exactly ceil(length/3) fetches are made, the caller's buffer receives `readings[0..length)` and keeps its values from `length` on |
| FeatureWindow.SuccessFillsTriples | src/main.cpp:49-66 | on success triple k of `readings` holds the x, y and z of the k-th sample fetched |
| FeatureWindow.FailureAbortsAtFirstError | src/main.cpp:51-56 | a failed fetch returns 1 and is the last fetch made; the caller's buffer is untouched; only the triples of the samples fetched before it are overwritten, and `readings` is unchanged from there on |
| FeatureWindow.TailUnchanged | src/main.cpp:48-66 | whatever the outcome, no element of `readings` at index 3 * ceil(length/3) or beyond changes |
| FeatureWindow.FullFrameForgetsOldWindow | src/main.cpp:39-66 | a successful call for the whole frame, with a frame size that is a multiple of 3, has an outcome independent of the old contents of `readings` |

## Left out

- `main`: the network connection, the Golioth client, the semaphore wait, the
  `run_classifier` call and the result logging are I/O or foreign code with no
  logic of their own.
- `on_client_event`: cross-thread signalling on the connect event only.
- `k_sleep(K_MSEC(16))`: real-time pacing with no effect on the buffers.
- Logging (`GLTH_LOGE`): output only.
- `sensor_sample_fetch` and `sensor_channel_get` are driver calls. They are
  modelled as one fetch that yields either a failure or the three channel
  values. The error code itself is not modelled, only that it is nonzero.
  Failures of `sensor_channel_get` are ignored by the code and do not occur in
  the model.
- ToFloat: computes `val1 + val2 / 1000000` exactly over the reals. It does
  not model single-precision rounding or the 32-bit width of the
  `sensor_value` fields.
- Collector.SampleAccel: requires `WritesFit(frameSize, length)`. Without it
  the code writes past the end of `readings`, which is undefined behaviour in
  C and is not modelled.
- Collector.SampleAccel: requires that the caller's buffer is distinct from
  `readings`. `memcpy` between overlapping buffers is undefined.
- The `size_t` width of `i` and `length`: `length` is at most the frame size
  whenever the loop runs, so no arithmetic in the callback can wrap.
