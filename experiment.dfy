/**
 * Acquisition settings and device readiness (app/core/experiment.py): the
 * `Config` record with its defaults and its field-dictionary round trip, the
 * registry of buffer handlers, and the readiness check on a device.
 */
module Experiment {
  import opened Outcomes
  import opened NdArrays

  // ------------------------------------------------------------------
  // Configuration
  // ------------------------------------------------------------------

  /** A scalar as the JSON decoder produces it. */
  datatype Value = Str(s: string) | Int(i: int) | Float(x: real) | Bool(b: bool) | Null

  /**
   * The acquisition parameters. The dataclass annotates its fields as
   * str, float, int and str but does not check them, so each field holds
   * whatever value it was given; `WellTyped` states the annotated kinds.
   */
  datatype Config = Config(ip: Value, exposure: Value, bufferSize: Value, bufferHandler: Value)

  /** The keyword arguments `Config` accepts, which are also the keys of its field dictionary. */
  const FieldNames: set<string> := {"ip", "exposure", "buffer_size", "buffer_handler"}

  predicate WellTyped(c: Config)
  {
    && c.ip.Str?
    && (c.exposure.Int? || c.exposure.Float?)
    && c.bufferSize.Int?
    && c.bufferHandler.Str?
  }

  /** `Config.default()`, without writing the file. */
  function Default(): (c: Config)
    ensures c.ip == Str("10.116.220.2")
    ensures c.exposure == Int(2)
    ensures c.bufferSize == Int(1)
    ensures c.bufferHandler == Str("average")
    ensures WellTyped(c)
  {
    Config(Str("10.116.220.2"), Int(2), Int(1), Str("average"))
  }

  /** `dataclasses.asdict(config)`: the field dictionary that `to_json` writes. */
  function AsDict(c: Config): (d: map<string, Value>)
    ensures d.Keys == FieldNames
    ensures d["ip"] == c.ip && d["exposure"] == c.exposure
    ensures d["buffer_size"] == c.bufferSize && d["buffer_handler"] == c.bufferHandler
  {
    map["ip" := c.ip, "exposure" := c.exposure, "buffer_size" := c.bufferSize, "buffer_handler" := c.bufferHandler]
  }

  /**
   * `Config(**fields)`: binding the keywords raises TypeError for a key that
   * is not a field (checked first) and for a field without a key.
   */
  function FromFields(fields: map<string, Value>): (r: Result<Config>)
    ensures r.Success? <==> fields.Keys == FieldNames
    ensures !(fields.Keys <= FieldNames) ==> r == Failure(TypeError("unexpected keyword argument"))
    ensures fields.Keys < FieldNames ==> r == Failure(TypeError("missing required argument"))
    ensures r.Success? ==> AsDict(r.value) == fields
  {
    if !(fields.Keys <= FieldNames) then
      Failure(TypeError("unexpected keyword argument"))
    else if !(FieldNames <= fields.Keys) then
      Failure(TypeError("missing required argument"))
    else
      var c := Config(fields["ip"], fields["exposure"], fields["buffer_size"], fields["buffer_handler"]);
      assert AsDict(c) == fields;
      Success(c)
  }

  /** Rebuilding a config from its own field dictionary gives it back, field for field. */
  lemma FieldsRoundTrip(c: Config)
    ensures FromFields(AsDict(c)) == Success(c)
  {
  }

  /**
   * `Config.from_json` with the file abstracted: `stored` is the decoded
   * content of the file, or None when there is no file.
   */
  function Load(stored: Option<map<string, Value>>): (r: Result<Config>)
    ensures stored.None? ==> r == Success(Default())
    ensures stored.Some? ==> (r.Success? <==> stored.value.Keys == FieldNames)
    ensures stored.Some? && r.Success? ==> AsDict(r.value) == stored.value
  {
    match stored
    case None => Success(Default())
    case Some(fields) => FromFields(fields)
  }

  /**
   * What `to_json` stores, `from_json` loads back unchanged; on a first run
   * the defaults are loaded and the stored dictionary is theirs.
   */
  lemma LoadAfterSave(c: Config)
    ensures Load(Some(AsDict(c))) == Success(c)
    ensures Load(None) == Success(Default()) == Load(Some(AsDict(Default())))
  {
  }

  // ------------------------------------------------------------------
  // Buffer handlers
  // ------------------------------------------------------------------

  /** The reductions a buffer can apply to its frames. */
  datatype Reducer = Average

  /** `BUFFER_HANDLER`: the registry of reductions by name. */
  const BufferHandlers: map<string, Reducer> := map["average" := Average]

  /** `BUFFER_HANDLER[name]`: only "average" is registered; any other key raises KeyError. */
  function Lookup(name: Value): (r: Result<Reducer>)
    ensures r.Success? <==> name == Str("average")
    ensures r.Success? ==> r.value == Average
    ensures r.Failure? ==> r.error == KeyError
  {
    if name.Str? && name.s in BufferHandlers then Success(BufferHandlers[name.s]) else Failure(KeyError)
  }

  /** The default configuration names a registered handler. */
  lemma DefaultHandlerIsRegistered()
    ensures Lookup(Default().bufferHandler) == Success(Average)
    ensures BufferHandlers.Keys == {"average"}
  {
  }

  /**
   * Applies a handler to the stacked frames: "average" is
   * `partial(np.mean, axis=0)`, which removes the first axis.
   */
  function Apply(handler: Reducer, frames: Array): (r: Result<Array>)
    requires frames.Valid()
    ensures r.Success? <==> frames.Rank() >= 1 && frames.shape[0] > 0
    ensures r.Success? ==> r.value.Valid() && r.value.shape == frames.shape[1..]
    ensures handler == Average ==> r == MeanAxis0(frames)
  {
    match handler
    case Average => MeanAxis0(frames)
  }

  /** Averaging the frames [[1, 2]], [[3, 4]] and [[5, 6]] gives [[3, 4]]. */
  lemma AverageOfThreeFrames()
    ensures Apply(Average, Array([3, 1, 2], [1.0, 2.0, 3.0, 4.0, 5.0, 6.0])) == Success(Array([1, 2], [3.0, 4.0]))
  {
    var frames := Array([3, 1, 2], [1.0, 2.0, 3.0, 4.0, 5.0, 6.0]);
    assert Size([1, 2]) == 2;
    assert frames.Sub(0).items == [1.0, 2.0];
    assert frames.Sub(1).items == [3.0, 4.0];
    assert frames.Sub(2).items == [5.0, 6.0];
    assert Column(frames, 0) == [1.0, 3.0, 5.0];
    assert Column(frames, 1) == [2.0, 4.0, 6.0];
    assert Sum([1.0, 3.0, 5.0]) == 9.0 && Sum([2.0, 4.0, 6.0]) == 12.0;
    assert MeanAxis0(frames).value.items == [3.0, 4.0];
  }

  // ------------------------------------------------------------------
  // Device readiness
  // ------------------------------------------------------------------

  /** The device status codes of the instrument driver. */
  datatype DeviceStatusCode = Uninitialized | Connected | Disconnected | Reading | DoneReading | Error

  /** The buffering storage a device is built with. */
  datatype Storage = BufferStorage(bufferSize: Value, handler: Reducer)

  /**
   * What readiness looks at in a device: its status (unset before the driver
   * reports one), its storage and its exposure.
   */
  datatype Device = Device(status: Option<DeviceStatusCode>, storage: Option<Storage>, exposure: Option<real>)

  /** The driver's `is_status(codes)`: the device reports one of `codes`. */
  function IsStatus(device: Device, codes: set<DeviceStatusCode>): bool
  {
    device.status.Some? && device.status.value in codes
  }

  /** `is_device_ready`: storage and exposure are set and the device is connected or done reading. */
  function IsDeviceReady(device: Device): (ready: bool)
    ensures ready <==>
      && device.storage.Some?
      && device.exposure.Some?
      && (device.status == Some(Connected) || device.status == Some(DoneReading))
  {
    device.storage.Some? && device.exposure.Some? && IsStatus(device, {Connected, DoneReading})
  }

  /** In any other status the device is not ready, whatever its storage and exposure. */
  lemma NotReadyUnlessConnectedOrDone(status: Option<DeviceStatusCode>)
    requires status != Some(Connected) && status != Some(DoneReading)
    ensures forall storage, exposure :: !IsDeviceReady(Device(status, storage, exposure))
  {
  }
}
