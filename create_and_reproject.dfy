/**
 `create_and_reproject.rs`: the options for reprojecting a dataset into a new
 file (`CreateReprojectOptions`) and the orchestration that resolves the
 engine's arguments from them, runs the warp engine once, and then writes the
 requested destination no-data value into every band of the output, which the
 engine's one-shot call leaves out of the file's metadata.

 The foreign capabilities (path and SRS conversion, the driver registry, the
 warp engine, per-band metadata writes) are the functions of an `Env`; the
 files on disk are a `Store` value threaded through the call.
 */
module CreateAndReproject {
  import opened Gdal
  import opened Warp

  /** The arguments handed to `GDALCreateAndReprojectImage`. */
  datatype EngineCall = EngineCall(
    src: Dataset,
    srcWkt: Option<CString>,
    dest: CString,
    dstWkt: CString,
    driver: Driver,
    resampling: ResampleAlg,
    memoryLimit: nat,
    maxError: F64,
    warpOptions: GdalWarpOptions)

  /** What one engine run reports, and the files it leaves on disk. */
  datatype EngineRun = EngineRun(status: CplErr, store: Store)

  /** The foreign capabilities the orchestration calls, as total functions.
      `setBandNoData(path, b, v)` stands for fetching band `b` of the dataset
      opened at `path` and setting its no-data value to `v`: `None` when both
      succeed, the first error otherwise. `lastMessage` is the engine's last
      diagnostic. */
  datatype Env = Env(
    pathToCString: Path -> Result<CString, GdalError>,
    toWkt: SpatialRef -> Result<string, GdalError>,
    driverByName: string -> Result<Driver, GdalError>,
    engine: (EngineCall, Store) -> EngineRun,
    setBandNoData: (Path, nat, F64) -> Option<GdalError>,
    lastMessage: string)

  /** Every field of a `CreateReprojectOptions`, as one value. */
  datatype CreateReprojectSettings = CreateReprojectSettings(
    warpOptions: GdalWarpOptions,
    maxError: Option<F64>,
    srcSrs: Option<SpatialRef>,
    srcNoData: Option<F64>,
    dstNoData: Option<F64>,
    outputFormat: Option<string>)

  class CreateReprojectOptions {
    var warpOptions: GdalWarpOptions
    var maxError: Option<F64>
    var srcSrs: Option<SpatialRef>
    var srcNoData: Option<F64>
    var dstNoData: Option<F64>
    var outputFormat: Option<string>

    function Settings(): CreateReprojectSettings
      reads this
    {
      CreateReprojectSettings(warpOptions, maxError, srcSrs, srcNoData, dstNoData, outputFormat)
    }

    /** `new()`: the default configuration and no override of any kind. */
    constructor ()
      ensures warpOptions == DefaultWarpOptions()
      ensures MaxError().None? && SrcProjection().None? && OutputFormat().None?
      ensures srcNoData.None? && dstNoData.None?
    {
      warpOptions := DefaultWarpOptions();
      maxError := None;
      srcSrs := None;
      srcNoData := None;
      dstNoData := None;
      outputFormat := None;
    }

    function MaxError(): Option<F64>
      reads this
    {
      maxError
    }

    function SrcProjection(): Option<SpatialRef>
      reads this
    {
      srcSrs
    }

    function OutputFormat(): Option<string>
      reads this
    {
      outputFormat
    }

    function WarpOptions(): GdalWarpOptions
      reads this
    {
      warpOptions
    }

    method WithMaxError(value: F64)
      modifies this
      ensures MaxError() == Some(value)
      ensures Settings() == old(Settings()).(maxError := Some(value))
    {
      maxError := Some(value);
    }

    method WithSrcProjection(srs: SpatialRef)
      modifies this
      ensures SrcProjection() == Some(srs)
      ensures Settings() == old(Settings()).(srcSrs := Some(srs))
    {
      srcSrs := Some(srs);
    }

    /** This type has no getter for the no-data overrides; the orchestration
        reads the fields directly. */
    method WithSrcNoData(value: F64)
      modifies this
      ensures srcNoData == Some(value)
      ensures Settings() == old(Settings()).(srcNoData := Some(value))
    {
      srcNoData := Some(value);
    }

    method WithDstNoData(value: F64)
      modifies this
      ensures dstNoData == Some(value)
      ensures Settings() == old(Settings()).(dstNoData := Some(value))
    {
      dstNoData := Some(value);
    }

    method WithOutputFormat(format: string)
      modifies this
      ensures OutputFormat() == Some(format)
      ensures Settings() == old(Settings()).(outputFormat := Some(format))
    {
      outputFormat := Some(format);
    }

    /** Any edit made through `warp_options_mut`. */
    method WarpOptionsMut(edited: GdalWarpOptions)
      modifies this
      ensures WarpOptions() == edited
      ensures Settings() == old(Settings()).(warpOptions := edited)
    {
      warpOptions := edited;
    }
  }

  /** The destination SRS as a C string: its serialisation, failing when the
      serialiser fails or the text holds a NUL. */
  function DestinationWkt(dstSrs: SpatialRef, env: Env): (r: Result<CString, GdalError>)
    ensures r.Ok? <==> env.toWkt(dstSrs).Ok? && '\0' !in env.toWkt(dstSrs).value
    ensures r.Ok? ==> r.value == env.toWkt(dstSrs).value
    ensures env.toWkt(dstSrs).Err? ==> r == Err(env.toWkt(dstSrs).error)
  {
    match env.toWkt(dstSrs)
    case Err(e) => Err(e)
    case Ok(text) => NewCString(text)
  }

  /** The source SRS argument: absent exactly when no override is set, so
      that the engine reads it from the source dataset; otherwise the
      override's serialisation, failing when that fails. */
  function SourceWkt(srcSrs: Option<SpatialRef>, env: Env): (r: Result<Option<CString>, GdalError>)
    ensures srcSrs.None? ==> r == Ok(None)
    ensures r.Ok? ==> (r.value.None? <==> srcSrs.None?)
    ensures srcSrs.Some? ==>
      (r.Ok? <==> env.toWkt(srcSrs.value).Ok? && '\0' !in env.toWkt(srcSrs.value).value)
    ensures srcSrs.Some? && r.Ok? ==> r.value.value == env.toWkt(srcSrs.value).value
    ensures srcSrs.Some? && env.toWkt(srcSrs.value).Err? ==> r == Err(env.toWkt(srcSrs.value).error)
  {
    match srcSrs
    case None => Ok(None)
    case Some(srs) =>
      match env.toWkt(srs)
      case Err(e) => Err(e)
      case Ok(text) =>
        match NewCString(text)
        case Err(e) => Err(e)
        case Ok(c) => Ok(Some(c))
  }

  /** The output driver: the one registered under the requested format when
      a format is set (a failed lookup is the error), the source dataset's
      own driver otherwise. */
  function ResolveDriver(outputFormat: Option<string>, src: Dataset, env: Env): (r: Result<Driver, GdalError>)
    ensures outputFormat.None? ==> r == Ok(src.driver)
    ensures outputFormat.Some? ==> r == env.driverByName(outputFormat.value)
  {
    match outputFormat
    case None => Ok(src.driver)
    case Some(format) => env.driverByName(format)
  }

  /** Band `b` of the dataset at `path` accepts the no-data value `v`. */
  predicate Accepted(env: Env, path: Path, b: nat, v: F64) {
    env.setBandNoData(path, b, v).None?
  }

  /** The first band from `b` to `count` that refuses `v`, or `count + 1`
      when none does. */
  function FirstRefused(env: Env, path: Path, v: F64, b: nat, count: nat): (r: nat)
    requires 1 <= b <= count + 1
    ensures b <= r <= count + 1
    ensures forall j :: b <= j < r ==> Accepted(env, path, j, v)
    ensures r <= count ==> !Accepted(env, path, r, v)
    decreases count + 1 - b
  {
    if b > count then count + 1
    else if !Accepted(env, path, b, v) then b
    else FirstRefused(env, path, v, b + 1, count)
  }

  /** The band metadata after the fix-up stops at band `stop`: bands before
      it record `v`, the others keep what they had. */
  function WrittenBefore(bands: seq<Option<F64>>, v: F64, stop: nat): (r: seq<Option<F64>>)
    ensures |r| == |bands|
  {
    seq(|bands|, i requires 0 <= i < |bands| => if i + 1 < stop then Some(v) else bands[i])
  }

  /**
   What the destination no-data fix-up leaves behind: opening the file at
   `path` fails when there is none; otherwise bands are written from band 1
   on, and the first band that refuses ends the fix-up with its error, the
   bands before it already written and the rest untouched.
   */
  function FixedUp(store: Store, path: Path, v: F64, env: Env): (Result<(), GdalError>, Store) {
    if path !in store then (Err(NullPointer("GDALOpenEx")), store)
    else
      var ds := store[path];
      var stop := FirstRefused(env, path, v, 1, ds.RasterCount());
      var written := store[path := ds.(bandNoData := WrittenBefore(ds.bandNoData, v, stop))];
      if stop <= ds.RasterCount() then (Err(env.setBandNoData(path, stop, v).value), written)
      else (Ok(()), written)
  }

  /** The fix-up succeeds exactly when the file exists and every band accepts
      the value; then every band of the output records it, the number of
      bands and the driver are kept, and no other file changes. */
  lemma FixedUpEveryBand(store: Store, path: Path, v: F64, env: Env)
    ensures FixedUp(store, path, v, env).0.Ok?
        <==> path in store && forall b :: 1 <= b <= store[path].RasterCount() ==> Accepted(env, path, b, v)
    ensures FixedUp(store, path, v, env).0.Ok? ==>
      var after := FixedUp(store, path, v, env).1;
      && after.Keys == store.Keys
      && (forall p :: p in store && p != path ==> after[p] == store[p])
      && after[path].driver == store[path].driver
      && after[path].RasterCount() == store[path].RasterCount()
      && forall i :: 0 <= i < after[path].RasterCount() ==> after[path].bandNoData[i] == Some(v)
  {
  }

  /** `Dataset::open` of the output, then `for b in 1..=raster_count`: fetch
      band `b` and set its no-data value, returning at the first failure. */
  method SetNoDataOnAllBands(store: Store, path: Path, value: F64, env: Env)
    returns (r: Result<(), GdalError>, store': Store)
    ensures (r, store') == FixedUp(store, path, value, env)
  {
    if path !in store {
      return Err(NullPointer("GDALOpenEx")), store;
    }
    var ds := store[path];
    var count := ds.RasterCount();
    var bands := ds.bandNoData;
    store' := store;
    assert store == store[path := ds.(bandNoData := bands)];
    var b := 1;
    while b <= count
      invariant 1 <= b <= count + 1
      invariant forall j :: 1 <= j < b ==> Accepted(env, path, j, value)
      invariant bands == WrittenBefore(ds.bandNoData, value, b)
      invariant store' == store[path := ds.(bandNoData := bands)]
    {
      var failure := env.setBandNoData(path, b, value);
      if failure.Some? {
        var stop := FirstRefused(env, path, value, 1, count);
        assert stop < b ==> Accepted(env, path, stop, value);
        assert stop > b ==> Accepted(env, path, b, value);
        return Err(failure.value), store';
      }
      bands := bands[b - 1 := Some(value)];
      store' := store'[path := ds.(bandNoData := bands)];
      b := b + 1;
    }
    assert FirstRefused(env, path, value, 1, count) == count + 1;
    r := Ok(());
  }

  /**
   `create_and_reproject_image`. Before the engine runs, in this order: the
   destination path and SRS are converted, the source SRS override (if any)
   is serialised, the driver is resolved and the warp options are compiled
   from a copy, for the source dataset's band count; the first failure is
   returned and nothing runs or changes. Then the engine runs once with
   those arguments and a maximum error of `0.0` when none was set. A
   non-`CE_None` status is returned as an error with the engine's last
   message, and no fix-up follows. Otherwise, when a destination no-data
   value was requested, the output file is reopened and every band gets it;
   when none was requested, the output is not touched. `call` records the
   engine invocation, if one was made. The options object is only read.
   */
  method CreateAndReprojectImage(
    src: Dataset, dstFile: Path, dstSrs: SpatialRef, options: CreateReprojectOptions, env: Env, store: Store)
    returns (r: Result<(), GdalError>, call: Option<EngineCall>, store': Store)
    // The failures before the engine call, in the order they are met.
    ensures env.pathToCString(dstFile).Err? ==>
      r == Err(env.pathToCString(dstFile).error) && call.None? && store' == store
    ensures env.pathToCString(dstFile).Ok? && DestinationWkt(dstSrs, env).Err? ==>
      r == Err(DestinationWkt(dstSrs, env).error) && call.None? && store' == store
    ensures (env.pathToCString(dstFile).Ok? && DestinationWkt(dstSrs, env).Ok?
      && SourceWkt(options.srcSrs, env).Err?) ==>
      r == Err(SourceWkt(options.srcSrs, env).error) && call.None? && store' == store
    ensures (env.pathToCString(dstFile).Ok? && DestinationWkt(dstSrs, env).Ok?
      && SourceWkt(options.srcSrs, env).Ok? && ResolveDriver(options.outputFormat, src, env).Err?) ==>
      r == Err(ResolveDriver(options.outputFormat, src, env).error) && call.None? && store' == store
    ensures (env.pathToCString(dstFile).Ok? && DestinationWkt(dstSrs, env).Ok?
      && SourceWkt(options.srcSrs, env).Ok? && ResolveDriver(options.outputFormat, src, env).Ok?
      && Compiled(options.warpOptions, options.srcNoData, options.dstNoData, src.RasterCount()).Err?) ==>
      r == Err(Compiled(options.warpOptions, options.srcNoData, options.dstNoData, src.RasterCount()).error)
      && call.None? && store' == store
    // The engine runs exactly when every step before it succeeded, with these arguments.
    ensures call.Some? <==>
      && env.pathToCString(dstFile).Ok? && DestinationWkt(dstSrs, env).Ok?
      && SourceWkt(options.srcSrs, env).Ok? && ResolveDriver(options.outputFormat, src, env).Ok?
      && Compiled(options.warpOptions, options.srcNoData, options.dstNoData, src.RasterCount()).Ok?
    ensures call.Some? ==> call.value == EngineCall(
      src,
      SourceWkt(options.srcSrs, env).value,
      env.pathToCString(dstFile).value,
      DestinationWkt(dstSrs, env).value,
      ResolveDriver(options.outputFormat, src, env).value,
      options.warpOptions.resamplingAlg,
      options.warpOptions.memoryLimit,
      if options.maxError.Some? then options.maxError.value else ZERO,
      Compiled(options.warpOptions, options.srcNoData, options.dstNoData, src.RasterCount()).value)
    // After the engine call.
    ensures call.Some? && env.engine(call.value, store).status != CeNone ==>
      r == Err(CplError(env.engine(call.value, store).status, env.lastMessage))
      && store' == env.engine(call.value, store).store
    ensures call.Some? && env.engine(call.value, store).status == CeNone && options.dstNoData.None? ==>
      r == Ok(()) && store' == env.engine(call.value, store).store
    ensures call.Some? && env.engine(call.value, store).status == CeNone && options.dstNoData.Some? ==>
      (r, store') == FixedUp(env.engine(call.value, store).store, dstFile, options.dstNoData.value, env)
  {
    call := None;
    store' := store;
    var dest := env.pathToCString(dstFile);
    if dest.Err? {
      return Err(dest.error), call, store';
    }
    var dstWkt := DestinationWkt(dstSrs, env);
    if dstWkt.Err? {
      return Err(dstWkt.error), call, store';
    }
    var srcWkt := SourceWkt(options.SrcProjection(), env);
    if srcWkt.Err? {
      return Err(srcWkt.error), call, store';
    }
    var maxError := options.MaxError().UnwrapOr(ZERO);
    var driver := ResolveDriver(options.outputFormat, src, env);
    if driver.Err? {
      return Err(driver.error), call, store';
    }

    // The compile steps, inline, on a copy of the caller's warp options.
    var w := options.WarpOptions();
    if options.srcNoData.Some? || options.dstNoData.Some? {
      w := w.WithBandCount(src.RasterCount());
    }
    if options.srcNoData.Some? {
      var applied := w.ApplySrcNoData(options.srcNoData.value);
      if applied.Err? {
        return Err(applied.error), call, store';
      }
      w := applied.value;
    }
    if options.dstNoData.Some? {
      var applied := w.ApplyDstNoData(options.dstNoData.value);
      if applied.Err? {
        return Err(applied.error), call, store';
      }
      w := applied.value;
    }
    if w.workingDatatype.None? {
      w := w.WithAutoWorkingDatatype();
    }

    var c := EngineCall(src, srcWkt.value, dest.value, dstWkt.value, driver.value,
                        w.resamplingAlg, w.memoryLimit, maxError, w);
    call := Some(c);
    var run := env.engine(c, store);
    store' := run.store;
    if run.status != CeNone {
      return Err(CplError(run.status, env.lastMessage)), call, store';
    }

    if options.dstNoData.Some? {
      r, store' := SetNoDataOnAllBands(store', dstFile, options.dstNoData.value, env);
      return;
    }
    r := Ok(());
  }

  /** `255.0` as a double. */
  const NODATA_255: F64 := F64(0x406F_E000_0000_0000)

  /**
   The repository's `warp_reproject` scenario: output format `GTiff`,
   destination no-data `255.0`, nearest-neighbour resampling, target
   EPSG:4269. When the call succeeds, every band of the output records the
   no-data value; the engine was asked for the GTiff driver, nearest
   neighbour, and a configuration whose destination no-data covers every
   band of the source.
   */
  method WarpReprojectScenario(src: Dataset, env: Env, store: Store)
    returns (r: Result<(), GdalError>, call: Option<EngineCall>, store': Store)
    ensures r.Ok? ==>
      && "target/labels-proj.tif" in store'
      && forall i :: 0 <= i < store'["target/labels-proj.tif"].RasterCount() ==>
           store'["target/labels-proj.tif"].bandNoData[i] == Some(NODATA_255)
    ensures call.Some? ==>
      && env.driverByName("GTiff").Ok?
      && call.value.driver == env.driverByName("GTiff").value
      && call.value.resampling == NearestNeighbour
      && call.value.srcWkt.None?
      && EveryBand(call.value.warpOptions.dstNoData, NODATA_255, src.RasterCount())
  {
    var dstSrs := SpatialRef("EPSG:4269");
    var options := new CreateReprojectOptions();
    options.WithOutputFormat("GTiff");
    options.WithDstNoData(NODATA_255);
    options.WarpOptionsMut(options.WarpOptions().WithResamplingAlg(NearestNeighbour));
    r, call, store' := CreateAndReprojectImage(src, "target/labels-proj.tif", dstSrs, options, env, store);
    if r.Ok? {
      FixedUpEveryBand(env.engine(call.value, store).store, "target/labels-proj.tif", NODATA_255, env);
    }
    if call.Some? {
      CompiledNoData(options.warpOptions, options.srcNoData, options.dstNoData, src.RasterCount());
    }
  }
}
