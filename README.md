# Online spectrum viewer: acquisition core in Dafny

This project models the acquisition core of the online spectrum viewer. That
core is a web page that reads spectra from a network-attached spectrometer and
plots them. The model covers two source files:

- `app/core/signal.py`: the `Signal` value. It accepts only two-dimensional
  data. From that data it derives the channel count (the number of columns),
  the channel indices `0..n-1` and the intensities of row 0. It also covers
  `await_read_signal`, which wraps the frame that the device's blocking read
  returns.
- `app/core/experiment.py`: the acquisition settings (`Config`) and their
  defaults. It also covers the round trip between a config and its field
  dictionary (`dataclasses.asdict` / `Config(**fields)`), the loading rule of
  `from_json` with the file abstracted, the `BUFFER_HANDLER` registry and its
  only reduction, `np.mean(axis=0)`, and the readiness check `is_device_ready`.

Modules:

- `Outcomes` (`outcomes.dfy`): `Option`, the Python exceptions the code can
  raise, and `Result` (a value, or the exception raised).
- `NdArrays` (`ndarrays.dfy`): the NumPy arrays the code uses. An array is
  its shape plus its elements in row-major order. `Sub(i)` is `a[i]`,
  `At(i, j)` is `a[i, j]`, `Arange` is `np.arange`, and `MeanAxis0` is
  `np.mean(a, axis=0)` over reals.
- `Signals` (`signals.dfy`): `Signal`, its three properties and
  `await_read_signal`.
- `Experiment` (`experiment.dfy`): `Config`,
  `Default`, `AsDict`, `FromFields`, `Load`, the handler registry, and
  `IsDeviceReady`.

All of this code is pure. `Signal` never changes the array it holds, so it is
a datatype. Its properties are functions on it.

The dataclass `Config` does not check its type annotations. So the model's
`Config` holds JSON scalars of any kind, exactly as `Config(**json.load(f))`
would, and `WellTyped` states the annotated kinds. Because of this choice,
`FromFields(d)` succeeds exactly when `d` has the four field names as keys,
and the round trip holds both ways.

Two facts about the code that the model keeps:

- `from_json` does not reject an unknown `buffer_handler`. It fails only at
  `BUFFER_HANDLER[...]` (`Lookup`).
- Nothing rejects a non-positive exposure.

## Model

| member | source | states |
|---|---|---|
| `Signals.NewSignal` | app/core/signal.py:9-12 | construction succeeds if and only if the data has exactly two dimensions; on success the signal holds the data unchanged; any other rank raises AssertionError with the source's message |
| `Signals.Signal.NNumbers` | app/core/signal.py:15-17 | the channel count is the second shape entry, the column count, also when there are no rows: every row holds that many samples, and the data holds rows × channel count samples |
| `Signals.Signal.Number` | app/core/signal.py:19-21 | the channel indices have one entry per channel, entry j is j, and they strictly increase |
| `NdArrays.Arange` | app/core/signal.py:21 | `np.arange(n)` has length n and its i-th element is i |
| `Signals.Signal.Value` | app/core/signal.py:24-26 | succeeds if and only if the data has at least one row; it then has one intensity per channel, and entry j is element [0, j] of the data; with no rows it raises IndexError |
| `Signals.AwaitReadSignal` | app/core/signal.py:29-34 | the signal holds exactly the frame the blocking read returned; a frame that is not two-dimensional raises the same AssertionError |
| `Experiment.Default` | app/core/experiment.py:26-38 | the default config is ip "10.116.220.2", exposure 2, buffer_size 1, buffer_handler "average", each of its annotated kind |
| `Experiment.AsDict` | app/core/experiment.py:57 | the field dictionary has exactly the four field names as keys, each mapped to that field's value |
| `Experiment.FromFields` | app/core/experiment.py:46 | `Config(**fields)` succeeds if and only if the keys are exactly the four field names; an unexpected key and a missing key raise TypeError; on success, the config's field dictionary is `fields` itself |
| `Experiment.FieldsRoundTrip` | app/core/experiment.py:46-57 | rebuilding a config from its own field dictionary returns the same config, field for field |
| `Experiment.Load` | app/core/experiment.py:40-50 | with no stored file the default config is returned; with one, loading succeeds exactly when the stored keys are the field names, and the stored dictionary is then the config's field dictionary |
| `Experiment.LoadAfterSave` | app/core/experiment.py:40-57 | what `to_json` stores, `from_json` loads back unchanged; a first run loads the defaults, the same config that loading their stored dictionary gives |
| `Experiment.Lookup` | app/core/experiment.py:13-15 | the registry lookup succeeds if and only if the name is the string "average", and yields the average reducer; any other key raises KeyError |
| `Experiment.DefaultHandlerIsRegistered` | app/core/experiment.py:73 | the registry has exactly one key, "average", and the default config's handler resolves to the average reducer |
| `Experiment.Apply` | app/core/experiment.py:14 | applying the "average" handler succeeds if and only if the frames have a non-empty first axis; the result is a well-formed array whose shape is the input shape without its first axis; the "average" handler is exactly `MeanAxis0`, so the averaging properties proved about `MeanAxis0` hold of it |
| `NdArrays.MeanAxis0` | app/core/experiment.py:14 | `np.mean(axis=0)` drops the first axis from the shape; a scalar raises AxisError; an empty first axis has no mean |
| `NdArrays.MeanOfIdenticalSlices` | app/core/experiment.py:14 | averaging identical rows (sub-arrays along the first axis) gives back that row |
| `NdArrays.MeanWithinBounds` | app/core/experiment.py:14 | each element of the mean lies between any lower and upper bound of the elements it averages |
| `Experiment.AverageOfThreeFrames` | app/core/experiment.py:14 | averaging the frames [[1, 2]], [[3, 4]] and [[5, 6]] gives [[3, 4]] |
| `Experiment.IsDeviceReady` | app/core/experiment.py:86-93 | a device is ready if and only if it has storage, it has an exposure, and its status is CONNECTED or DONE_READING |
| `Experiment.NotReadyUnlessConnectedOrDone` | app/core/experiment.py:89-93 | in any other status, including an unset one, the device is not ready, whatever its storage and exposure |

## Left out

- The web page in `app/app.py` (the Dash layout, the button callback, `PreventUpdate` and the shaping of `extendData`) is display code. It is not part of this model.
- `app/core/config.py` holds only style constants and the unused `N_FRAMES`.
- File I/O in `from_json`, `to_json` and `Config.default` is not modelled: `os.path.isfile`, `open`, the JSON text encoding, and the file that `default()` writes. `Load` takes the decoded file content as a parameter, and `AsDict` is what `to_json` writes.
- Stored JSON content that is not an object, and field values that are JSON arrays or objects, are not modelled. `Value` covers the JSON scalars only.
- `setup_experiment` is not modelled. It builds `Device`, `DeviceEthernetConfig` and `BufferDeviceStorage`, calls `connect` and `set_exposure`, and prints an `AssertionError` and continues. All of these are calls into the instrument driver library, which is not part of this model.
- Device behaviour is not modelled: status transitions, the blocking and non-blocking reads, and the ring buffer with its application of the handler. All of them live in the driver library. `AwaitReadSignal` takes the driver's frame as a parameter.
- The driver's `is_status` is modelled as membership of the current status, where an unset status is in no set. The source names only CONNECTED and DONE_READING. The other four codes, UNINITIALIZED, DISCONNECTED, READING and ERROR, are assumed; no result depends on them.
- The text of Python's TypeError messages is fixed to two phrases, and KeyError does not carry the missing key.
- Floating point is not modelled. Intensities, exposures and means are reals.
- NdArrays.MeanAxis0: over an empty first axis NumPy returns NaN elements (and warns). Reals have no NaN, so the model returns `Failure(EmptySlice)` there.
- Experiment.Apply: over an empty first axis `partial(np.mean, axis=0)` returns NaN elements (and warns) rather than raising. The model returns `Failure(EmptySlice)` there, as `MeanAxis0` does.
- Experiment.Load: drops the `filepath` parameter of `from_json`. `to_json` always writes `config.json`, and `default()` writes through it. So `from_json(p)` with a missing `p` other than `config.json` returns the defaults on every call and never loads back what was stored. The model covers the default path, which is the only one `setup_experiment` uses.
- Experiment.LoadAfterSave: holds only for the default path `config.json`, for the reason given for `Load`.
