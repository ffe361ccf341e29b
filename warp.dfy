/**
 The engine-facing warp configuration (`GdalWarpOptions`), seen only through
 the fields the reprojection options touch, and the configuration that
 compiling a set of reprojection options must produce.

 The type's own definition lives in a file that is not part of this model;
 here it is a value with the operations the compile step calls. Applying a
 no-data value needs the band count to have been set first: the per-band
 storage is sized from it, and a count of zero (GDAL's "unset") leaves
 nothing to size.
 */
module Warp {
  import opened Gdal

  datatype ResampleAlg =
    | NearestNeighbour | Bilinear | Cubic | CubicSpline | Lanczos | Average
    | Mode | Max | Min | Median | Q1 | Q3 | Sum | Rms

  datatype GdalDataType =
    | UInt8 | Int8 | UInt16 | Int16 | UInt32 | Int32 | UInt64 | Int64
    | Float32 | Float64

  /** A working datatype chosen by the caller, or the one the engine derives
      from the source raster (how it is derived is the engine's business). */
  datatype WorkingDatatype = Explicit(dataType: GdalDataType) | AutoDerived

  datatype GdalWarpOptions = GdalWarpOptions(
    bandCount: Option<nat>,
    srcNoData: seq<F64>,
    dstNoData: seq<F64>,
    workingDatatype: Option<WorkingDatatype>,
    resamplingAlg: ResampleAlg,
    memoryLimit: nat)
  {
    /** The per-band no-data storage can be sized: a positive band count is set. */
    predicate BandsSized() {
      bandCount.Some? && bandCount.value > 0
    }

    function WithBandCount(n: nat): GdalWarpOptions {
      this.(bandCount := Some(n))
    }

    function ApplySrcNoData(v: F64): Result<GdalWarpOptions, GdalError> {
      if BandsSized() then Ok(this.(srcNoData := Broadcast(v, bandCount.value)))
      else Err(BandCountUnset(Source))
    }

    function ApplyDstNoData(v: F64): Result<GdalWarpOptions, GdalError> {
      if BandsSized() then Ok(this.(dstNoData := Broadcast(v, bandCount.value)))
      else Err(BandCountUnset(Destination))
    }

    function WithWorkingDatatype(t: GdalDataType): GdalWarpOptions {
      this.(workingDatatype := Some(Explicit(t)))
    }

    function WithAutoWorkingDatatype(): GdalWarpOptions {
      this.(workingDatatype := Some(AutoDerived))
    }

    function WithResamplingAlg(alg: ResampleAlg): GdalWarpOptions {
      this.(resamplingAlg := alg)
    }

    function WithMemoryLimit(limit: nat): GdalWarpOptions {
      this.(memoryLimit := limit)
    }
  }

  /** A freshly created configuration: nothing sized, nothing chosen. */
  function DefaultWarpOptions(): GdalWarpOptions {
    GdalWarpOptions(None, [], [], None, NearestNeighbour, 0)
  }

  /** One value for each of `n` bands. */
  function Broadcast(v: F64, n: nat): seq<F64> {
    seq(n, _ => v)
  }

  /** True when `s` holds `v` once for each of `n` bands. */
  predicate EveryBand(s: seq<F64>, v: F64, n: nat) {
    |s| == n && forall i :: 0 <= i < n ==> s[i] == v
  }

  /**
   The configuration that compiling options holding warp options `w` and the
   no-data overrides `srcNoData`/`dstNoData` must yield for a dataset of
   `bandCount` bands, described by what each field ends up as rather than by
   the steps that produce it: the band count is the dataset's when either
   override is present; each present override is recorded for every band;
   an unset working datatype becomes the derived one; nothing else changes.
   It fails, with the error of the first override applied, exactly when an
   override is present and there are no bands to size the storage for.
   */
  function Compiled(w: GdalWarpOptions, srcNoData: Option<F64>, dstNoData: Option<F64>, bandCount: nat)
    : Result<GdalWarpOptions, GdalError>
  {
    var overridden := srcNoData.Some? || dstNoData.Some?;
    if overridden && bandCount == 0 then
      Err(BandCountUnset(if srcNoData.Some? then Source else Destination))
    else
      Ok(GdalWarpOptions(
        if overridden then Some(bandCount) else w.bandCount,
        if srcNoData.Some? then Broadcast(srcNoData.value, bandCount) else w.srcNoData,
        if dstNoData.Some? then Broadcast(dstNoData.value, bandCount) else w.dstNoData,
        if w.workingDatatype.Some? then w.workingDatatype else Some(AutoDerived),
        w.resamplingAlg,
        w.memoryLimit))
  }

  /** Compiling fails exactly when a no-data override is present and there are
      no bands; the error names the source side when a source override is
      present, the destination side otherwise. */
  lemma CompiledFailsOnlyWithoutBands(w: GdalWarpOptions, srcNoData: Option<F64>, dstNoData: Option<F64>, bandCount: nat)
    ensures Compiled(w, srcNoData, dstNoData, bandCount).Err?
        <==> (srcNoData.Some? || dstNoData.Some?) && bandCount == 0
    ensures srcNoData.Some? && bandCount == 0 ==>
        Compiled(w, srcNoData, dstNoData, bandCount) == Err(BandCountUnset(Source))
    ensures srcNoData.None? && dstNoData.Some? && bandCount == 0 ==>
        Compiled(w, srcNoData, dstNoData, bandCount) == Err(BandCountUnset(Destination))
  {
  }

  /** The band count of the result is the dataset's exactly when an override
      is present; otherwise the configured one is kept as it was. */
  lemma CompiledBandCount(w: GdalWarpOptions, srcNoData: Option<F64>, dstNoData: Option<F64>, bandCount: nat)
    requires Compiled(w, srcNoData, dstNoData, bandCount).Ok?
    ensures var c := Compiled(w, srcNoData, dstNoData, bandCount).value;
      (srcNoData.Some? || dstNoData.Some? ==> c.bandCount == Some(bandCount) && c.BandsSized())
      && (srcNoData.None? && dstNoData.None? ==> c.bandCount == w.bandCount)
  {
  }

  /** A present override reaches every band, sized to the band count, and is
      never dropped; an absent one leaves the configured array untouched. */
  lemma CompiledNoData(w: GdalWarpOptions, srcNoData: Option<F64>, dstNoData: Option<F64>, bandCount: nat)
    requires Compiled(w, srcNoData, dstNoData, bandCount).Ok?
    ensures var c := Compiled(w, srcNoData, dstNoData, bandCount).value;
      (srcNoData.Some? ==> EveryBand(c.srcNoData, srcNoData.value, c.bandCount.value))
      && (srcNoData.None? ==> c.srcNoData == w.srcNoData)
      && (dstNoData.Some? ==> EveryBand(c.dstNoData, dstNoData.value, c.bandCount.value))
      && (dstNoData.None? ==> c.dstNoData == w.dstNoData)
  {
  }

  /** An explicitly chosen working datatype survives compilation; an unset one
      becomes the derived one. Resampling and the memory limit are not
      touched. */
  lemma CompiledWorkingDatatype(w: GdalWarpOptions, srcNoData: Option<F64>, dstNoData: Option<F64>, bandCount: nat)
    requires Compiled(w, srcNoData, dstNoData, bandCount).Ok?
    ensures var c := Compiled(w, srcNoData, dstNoData, bandCount).value;
      (w.workingDatatype.Some? ==> c.workingDatatype == w.workingDatatype)
      && (w.workingDatatype.None? ==> c.workingDatatype == Some(AutoDerived))
      && c.resamplingAlg == w.resamplingAlg && c.memoryLimit == w.memoryLimit
  {
  }

  /** Why the band count is set first: on a configuration whose band count
      is not set, applying either no-data value fails; once a positive count
      is set, the same application succeeds and reaches every band. */
  lemma SizeBeforeFill(w: GdalWarpOptions, v: F64, n: nat)
    requires w.bandCount.None?
    ensures w.ApplySrcNoData(v).Err? && w.ApplyDstNoData(v).Err?
    ensures n > 0 ==>
      && w.WithBandCount(n).ApplySrcNoData(v).Ok?
      && EveryBand(w.WithBandCount(n).ApplySrcNoData(v).value.srcNoData, v, n)
    ensures n > 0 ==>
      && w.WithBandCount(n).ApplyDstNoData(v).Ok?
      && EveryBand(w.WithBandCount(n).ApplyDstNoData(v).value.dstNoData, v, n)
  {
  }
}
