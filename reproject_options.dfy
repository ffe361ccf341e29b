/**
 The reprojection options of `reproject_options.rs`: `ReprojectOptions` (for
 creating a new output file) and `ReprojectIntoOptions` (for reprojecting into
 an existing dataset). Each is an object whose fluent setters update one field
 in place, and each compiles itself into a fresh warp configuration for a
 given band count without touching its own state.
 */
module Reproject {
  import opened Gdal
  import opened Warp

  /** Every field of a `ReprojectOptions`, as one value, so that contracts can
      say which single field a setter changes. */
  datatype ReprojectSettings = ReprojectSettings(
    warpOptions: GdalWarpOptions,
    maxError: Option<F64>,
    srcSrs: Option<SpatialRef>,
    srcNoData: Option<F64>,
    dstNoData: Option<F64>,
    outputFormat: Option<string>)

  class ReprojectOptions {
    var warpOptions: GdalWarpOptions
    var maxError: Option<F64>
    var srcSrs: Option<SpatialRef>
    var srcNoData: Option<F64>
    var dstNoData: Option<F64>
    var outputFormat: Option<string>

    function Settings(): ReprojectSettings
      reads this
    {
      ReprojectSettings(warpOptions, maxError, srcSrs, srcNoData, dstNoData, outputFormat)
    }

    /** `new()`: the default configuration and no override of any kind. */
    constructor ()
      ensures warpOptions == DefaultWarpOptions()
      ensures MaxError().None? && SrcProjection().None? && SrcNoData().None?
      ensures DstNoData().None? && OutputFormat().None?
    {
      warpOptions := DefaultWarpOptions();
      maxError := None;
      srcSrs := None;
      srcNoData := None;
      dstNoData := None;
      outputFormat := None;
    }

    function MaxError(): Option<F64>
      reads this
    {
      maxError
    }

    function SrcProjection(): Option<SpatialRef>
      reads this
    {
      srcSrs
    }

    function SrcNoData(): Option<F64>
      reads this
    {
      srcNoData
    }

    function DstNoData(): Option<F64>
      reads this
    {
      dstNoData
    }

    function OutputFormat(): Option<string>
      reads this
    {
      outputFormat
    }

    function WarpOptions(): GdalWarpOptions
      reads this
    {
      warpOptions
    }

    method WithMaxError(value: F64)
      modifies this
      ensures MaxError() == Some(value)
      ensures Settings() == old(Settings()).(maxError := Some(value))
    {
      maxError := Some(value);
    }

    method WithSrcProjection(srs: SpatialRef)
      modifies this
      ensures SrcProjection() == Some(srs)
      ensures Settings() == old(Settings()).(srcSrs := Some(srs))
    {
      srcSrs := Some(srs);
    }

    method WithSrcNoData(value: F64)
      modifies this
      ensures SrcNoData() == Some(value)
      ensures Settings() == old(Settings()).(srcNoData := Some(value))
    {
      srcNoData := Some(value);
    }

    method WithDstNoData(value: F64)
      modifies this
      ensures DstNoData() == Some(value)
      ensures Settings() == old(Settings()).(dstNoData := Some(value))
    {
      dstNoData := Some(value);
    }

    method WithOutputFormat(format: string)
      modifies this
      ensures OutputFormat() == Some(format)
      ensures Settings() == old(Settings()).(outputFormat := Some(format))
    {
      outputFormat := Some(format);
    }

    /** Any edit made through `warp_options_mut`: the warp options become
        `edited` and nothing else changes. */
    method WarpOptionsMut(edited: GdalWarpOptions)
      modifies this
      ensures WarpOptions() == edited
      ensures Settings() == old(Settings()).(warpOptions := edited)
    {
      warpOptions := edited;
    }

    /**
     Works on a copy of the warp options: sets the band count when a no-data
     override is present, applies the source then the destination override,
     and fills in the derived working datatype when none was chosen. The
     result is the reference configuration `Compiled`; with no `modifies`
     clause, the options object itself cannot change.
     */
    method CloneAndInitWarpOptions(bandCount: nat) returns (r: Result<GdalWarpOptions, GdalError>)
      ensures r == Compiled(warpOptions, srcNoData, dstNoData, bandCount)
    {
      var w := WarpOptions();
      if SrcNoData().Some? || DstNoData().Some? {
        w := w.WithBandCount(bandCount);
      }
      if SrcNoData().Some? {
        var applied := w.ApplySrcNoData(SrcNoData().value);
        if applied.Err? {
          return Err(applied.error);
        }
        w := applied.value;
      }
      if DstNoData().Some? {
        var applied := w.ApplyDstNoData(DstNoData().value);
        if applied.Err? {
          return Err(applied.error);
        }
        w := applied.value;
      }
      if w.workingDatatype.None? {
        w := w.WithAutoWorkingDatatype();
      }
      r := Ok(w);
    }
  }

  /** Every field of a `ReprojectIntoOptions`, as one value. */
  datatype ReprojectIntoSettings = ReprojectIntoSettings(
    warpOptions: GdalWarpOptions,
    maxError: Option<F64>,
    srcSrs: Option<SpatialRef>,
    dstSrs: Option<SpatialRef>,
    srcNoData: Option<F64>,
    dstNoData: Option<F64>)

  class ReprojectIntoOptions {
    var warpOptions: GdalWarpOptions
    var maxError: Option<F64>
    var srcSrs: Option<SpatialRef>
    var dstSrs: Option<SpatialRef>
    var srcNoData: Option<F64>
    var dstNoData: Option<F64>

    function Settings(): ReprojectIntoSettings
      reads this
    {
      ReprojectIntoSettings(warpOptions, maxError, srcSrs, dstSrs, srcNoData, dstNoData)
    }

    /** `new()`: the default configuration and no override of any kind. */
    constructor ()
      ensures warpOptions == DefaultWarpOptions()
      ensures MaxError().None? && SrcProjection().None? && DstProjection().None?
      ensures SrcNoData().None? && DstNoData().None?
    {
      warpOptions := DefaultWarpOptions();
      maxError := None;
      srcSrs := None;
      dstSrs := None;
      srcNoData := None;
      dstNoData := None;
    }

    function MaxError(): Option<F64>
      reads this
    {
      maxError
    }

    function SrcProjection(): Option<SpatialRef>
      reads this
    {
      srcSrs
    }

    function DstProjection(): Option<SpatialRef>
      reads this
    {
      dstSrs
    }

    function SrcNoData(): Option<F64>
      reads this
    {
      srcNoData
    }

    function DstNoData(): Option<F64>
      reads this
    {
      dstNoData
    }

    function WarpOptions(): GdalWarpOptions
      reads this
    {
      warpOptions
    }

    method WithMaxError(value: F64)
      modifies this
      ensures MaxError() == Some(value)
      ensures Settings() == old(Settings()).(maxError := Some(value))
    {
      maxError := Some(value);
    }

    method WithSrcProjection(srs: SpatialRef)
      modifies this
      ensures SrcProjection() == Some(srs)
      ensures Settings() == old(Settings()).(srcSrs := Some(srs))
    {
      srcSrs := Some(srs);
    }

    method WithDstProjection(srs: SpatialRef)
      modifies this
      ensures DstProjection() == Some(srs)
      ensures Settings() == old(Settings()).(dstSrs := Some(srs))
    {
      dstSrs := Some(srs);
    }

    method WithSrcNoData(value: F64)
      modifies this
      ensures SrcNoData() == Some(value)
      ensures Settings() == old(Settings()).(srcNoData := Some(value))
    {
      srcNoData := Some(value);
    }

    method WithDstNoData(value: F64)
      modifies this
      ensures DstNoData() == Some(value)
      ensures Settings() == old(Settings()).(dstNoData := Some(value))
    {
      dstNoData := Some(value);
    }

    /** Any edit made through `warp_options_mut`. */
    method WarpOptionsMut(edited: GdalWarpOptions)
      modifies this
      ensures WarpOptions() == edited
      ensures Settings() == old(Settings()).(warpOptions := edited)
    {
      warpOptions := edited;
    }

    /** The same steps as `ReprojectOptions.CloneAndInitWarpOptions`, on this
        object's own copy of the warp options. */
    method CloneAndInitWarpOptions(bandCount: nat) returns (r: Result<GdalWarpOptions, GdalError>)
      ensures r == Compiled(warpOptions, srcNoData, dstNoData, bandCount)
    {
      var w := WarpOptions();
      if SrcNoData().Some? || DstNoData().Some? {
        w := w.WithBandCount(bandCount);
      }
      if SrcNoData().Some? {
        var applied := w.ApplySrcNoData(SrcNoData().value);
        if applied.Err? {
          return Err(applied.error);
        }
        w := applied.value;
      }
      if DstNoData().Some? {
        var applied := w.ApplyDstNoData(DstNoData().value);
        if applied.Err? {
          return Err(applied.error);
        }
        w := applied.value;
      }
      if w.workingDatatype.None? {
        w := w.WithAutoWorkingDatatype();
      }
      r := Ok(w);
    }
  }

  /** The two option types compile alike: equal warp options, no-data
      overrides and band count give equal results, whatever else differs. */
  method CompilersAgree(create: ReprojectOptions, into: ReprojectIntoOptions, bandCount: nat)
    returns (fromCreate: Result<GdalWarpOptions, GdalError>, fromInto: Result<GdalWarpOptions, GdalError>)
    requires create.warpOptions == into.warpOptions
    requires create.srcNoData == into.srcNoData && create.dstNoData == into.dstNoData
    ensures fromCreate == fromInto
  {
    fromCreate := create.CloneAndInitWarpOptions(bandCount);
    fromInto := into.CloneAndInitWarpOptions(bandCount);
  }

  /** Options are reusable: compiling the same object twice for the same band
      count gives the same configuration, since compiling changes nothing. */
  method CompileTwice(options: ReprojectOptions, bandCount: nat)
    returns (first: Result<GdalWarpOptions, GdalError>, second: Result<GdalWarpOptions, GdalError>)
    ensures first == second
  {
    first := options.CloneAndInitWarpOptions(bandCount);
    second := options.CloneAndInitWarpOptions(bandCount);
  }
}
