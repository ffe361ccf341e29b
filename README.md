# Reprojection options and create-and-reproject, in Dafny

This project models the reprojection-options layer of the GDAL Rust bindings
(`src/raster/warp/`). It covers three things:

- The option objects with fluent setters: `ReprojectOptions`,
  `ReprojectIntoOptions` and `CreateReprojectOptions`.
- The order-sensitive step that compiles options into a fresh warp
  configuration (`clone_and_init_warp_options`, and the same steps written
  inline in `create_and_reproject_image`).
- The orchestration in `create_and_reproject_image`. It converts the
  destination path and SRS, serialises the source SRS override and resolves
  the output driver. It then compiles the warp options for the source's band
  count, runs the warp engine once, and writes the requested destination
  no-data value into every band of the output. The engine's one-shot call
  leaves that value out of the file's metadata.

Layout, one module per source file plus shared values:

- `gdal.dfy` (`Gdal`): `Option`/`Result`, and `f64` as an opaque 64-bit pattern
  that is only stored and compared. Also C strings (text without NUL), with
  `CString::new` failing exactly on an interior NUL, spatial references,
  drivers, datasets (driver plus per-band no-data metadata) and the files on
  disk as a `Store` value.
- `warp.dfy` (`Warp`): `GdalWarpOptions` as an abstract value. It holds an
  optional band count, per-band source and destination no-data sequences, an
  optional working datatype, a resampling algorithm and a memory limit. The
  module also holds `Compiled`, a declarative statement of the configuration
  the compile step must produce, and the lemmas about it.
- `reproject_options.dfy` (`Reproject`): the two option classes of
  `reproject_options.rs` and their compilers. Each compiler is proved equal
  to `Compiled`.
- `create_and_reproject.dfy` (`CreateAndReproject`): `CreateReprojectOptions`,
  the argument-resolution functions, the no-data fix-up loop and
  `CreateAndReprojectImage`.

Foreign I/O is passed in as the functions of an `Env` value:
- path conversion;
- SRS-to-WKT serialisation;
- the driver registry;
- the warp engine (its status and the files it leaves behind);
- fetching a band and setting its no-data value.

`Dataset::open` succeeds exactly when a dataset is stored under the path. The
options methods that compile or orchestrate have no `modifies` clause, so the
verifier itself guarantees they never change the caller's options object.

The model follows the code where the description of the system differs from
it:
- The fix-up loop runs over the bands of the reopened output file
  (`ds.raster_count()` of the output), not over the source's bands.
- The "reproject into an existing dataset" entry point in `mod.rs` takes no
  options and makes one fixed engine call. `ReprojectIntoOptions` is
  therefore modelled only as an options type with its compiler.

## Model

| member | source | states |
|---|---|---|
| `Reproject.ReprojectOptions.constructor` | src/raster/warp/reproject_options.rs:6-19 | `new()` gives the default warp options and leaves max error, source SRS, both no-data values and output format unset |
| `Reproject.ReprojectOptions.WithMaxError` | src/raster/warp/reproject_options.rs:27-37 | stores `Some(value)` as max error, the `max_error` getter returns it, every other field is unchanged |
| `Reproject.ReprojectOptions.WithSrcProjection` | src/raster/warp/reproject_options.rs:43-51 | stores the source SRS override, the `src_projection` getter returns it, nothing else changes |
| `Reproject.ReprojectOptions.WithSrcNoData` | src/raster/warp/reproject_options.rs:56-64 | stores the source no-data override, the getter returns it, nothing else changes |
| `Reproject.ReprojectOptions.WithDstNoData` | src/raster/warp/reproject_options.rs:73-81 | stores the destination no-data override, the getter returns it, nothing else changes |
| `Reproject.ReprojectOptions.WithOutputFormat` | src/raster/warp/reproject_options.rs:103-111 | stores the output format identifier, the getter returns it, nothing else changes |
| `Reproject.ReprojectOptions.WarpOptionsMut` | src/raster/warp/reproject_options.rs:114-121 | an edit through the mutable accessor replaces the warp options, which the immutable accessor then returns, and changes nothing else |
| `Reproject.ReprojectOptions.CloneAndInitWarpOptions` | src/raster/warp/reproject_options.rs:129-151 | the step-by-step compile of a copy returns exactly `Compiled` of the stored warp options, no-data overrides and band count; with no `modifies` clause it cannot change the options |
| `Reproject.ReprojectIntoOptions.constructor` | src/raster/warp/reproject_options.rs:155-168 | `new()` gives the default warp options and leaves max error, both SRS overrides and both no-data values unset |
| `Reproject.ReprojectIntoOptions.WithMaxError` | src/raster/warp/reproject_options.rs:176-186 | stores the max error, the getter returns it, nothing else changes |
| `Reproject.ReprojectIntoOptions.WithSrcProjection` | src/raster/warp/reproject_options.rs:192-200 | stores the source SRS override, the getter returns it, nothing else changes |
| `Reproject.ReprojectIntoOptions.WithDstProjection` | src/raster/warp/reproject_options.rs:206-214 | stores the destination SRS override, the `dst_projection` getter returns it, nothing else changes |
| `Reproject.ReprojectIntoOptions.WithSrcNoData` | src/raster/warp/reproject_options.rs:219-227 | stores the source no-data override, the getter returns it, nothing else changes |
| `Reproject.ReprojectIntoOptions.WithDstNoData` | src/raster/warp/reproject_options.rs:236-244 | stores the destination no-data override, the getter returns it, nothing else changes |
| `Reproject.ReprojectIntoOptions.WarpOptionsMut` | src/raster/warp/reproject_options.rs:247-254 | an edit through the mutable accessor replaces the warp options and changes nothing else |
| `Reproject.ReprojectIntoOptions.CloneAndInitWarpOptions` | src/raster/warp/reproject_options.rs:262-284 | the compile of a copy returns exactly `Compiled` of this object's warp options, no-data overrides and band count, leaving the object unchanged |
| `Reproject.CompilersAgree` | src/raster/warp/reproject_options.rs:262-284 | the two option types compile to equal results for equal warp options, no-data overrides and band count, however their other fields differ |
| `Reproject.CompileTwice` | src/raster/warp/reproject_options.rs:123-130 | options are reusable: compiling the same object twice for one band count yields the same configuration |
| `Warp.CompiledFailsOnlyWithoutBands` | src/raster/warp/reproject_options.rs:134-144 | compiling fails exactly when a no-data override is present and the band count is zero; the error is the source application's when a source override is present, the destination's otherwise, and no configuration is returned |
| `Warp.CompiledBandCount` | src/raster/warp/reproject_options.rs:134-136 | the result's band count is the given one (and sizes the per-band storage) exactly when a no-data override is present; otherwise it is the stored one |
| `Warp.CompiledNoData` | src/raster/warp/reproject_options.rs:138-144 | a present override is recorded for every band, as many times as the band count; an absent one leaves the stored per-band values as they were |
| `Warp.CompiledWorkingDatatype` | src/raster/warp/reproject_options.rs:146-148 | an explicitly set working datatype is kept; an unset one becomes the auto-derived one; resampling and memory limit are untouched |
| `Warp.SizeBeforeFill` | src/raster/warp/reproject_options.rs:132-136 | on warp options without a band count, applying either no-data value fails; after a positive band count is set, it succeeds and reaches every band, which is why the band count comes first |
| `Gdal.NewCString` | src/raster/warp/create_and_reproject.rs:128 | converting text to a C string fails exactly when it holds a NUL, and otherwise keeps the text |
| `CreateAndReproject.CreateReprojectOptions.constructor` | src/raster/warp/create_and_reproject.rs:12-25 | `new()` gives the default warp options and leaves every override unset |
| `CreateAndReproject.CreateReprojectOptions.WithMaxError` | src/raster/warp/create_and_reproject.rs:33-43 | stores the max error, the getter returns it, nothing else changes |
| `CreateAndReproject.CreateReprojectOptions.WithSrcProjection` | src/raster/warp/create_and_reproject.rs:49-57 | stores the source SRS override, the getter returns it, nothing else changes |
| `CreateAndReproject.CreateReprojectOptions.WithSrcNoData` | src/raster/warp/create_and_reproject.rs:62-65 | stores the source no-data override and changes nothing else |
| `CreateAndReproject.CreateReprojectOptions.WithDstNoData` | src/raster/warp/create_and_reproject.rs:74-77 | stores the destination no-data override and changes nothing else |
| `CreateAndReproject.CreateReprojectOptions.WithOutputFormat` | src/raster/warp/create_and_reproject.rs:99-107 | stores the output format, the getter returns it, nothing else changes |
| `CreateAndReproject.CreateReprojectOptions.WarpOptionsMut` | src/raster/warp/create_and_reproject.rs:110-117 | an edit through the mutable accessor replaces the warp options and changes nothing else |
| `CreateAndReproject.DestinationWkt` | src/raster/warp/create_and_reproject.rs:128 | the destination SRS text succeeds exactly when serialisation succeeds and yields no NUL; a serialisation error is passed on unchanged |
| `CreateAndReproject.SourceWkt` | src/raster/warp/create_and_reproject.rs:130-136 | the source SRS argument is absent exactly when no override is set; with an override it is the override's serialisation, and a failed serialisation or NUL fails the call |
| `CreateAndReproject.ResolveDriver` | src/raster/warp/create_and_reproject.rs:140-145 | with an output format, the driver registered under that name (a failed lookup is the error); without one, the source dataset's driver |
| `CreateAndReproject.FirstRefused` | src/raster/warp/create_and_reproject.rs:197-200 | the first band from `b` on that refuses the no-data value, or one past the last: every band before it accepts, and it refuses |
| `CreateAndReproject.FixedUpEveryBand` | src/raster/warp/create_and_reproject.rs:195-201 | the fix-up succeeds exactly when the output exists and every band accepts; then every band records the value, the band count and driver are kept, and no other file changes |
| `CreateAndReproject.SetNoDataOnAllBands` | src/raster/warp/create_and_reproject.rs:195-201 | the open-then-loop over bands 1 to `raster_count` leaves exactly `FixedUp`: bands before the first refusal written, that refusal's error returned, later bands untouched |
| `CreateAndReproject.CreateAndReprojectImage` | src/raster/warp/create_and_reproject.rs:120-204 | failures before the engine come in source order (path, destination SRS, source SRS, driver, no-data application), and each returns its error with no engine call and no file change. The engine runs exactly when all succeed, with the source SRS absent iff no override, max error defaulting to `0.0`, the resolved driver, the options' resampling and memory limit, and `Compiled` for the source's band count. A non-`CE_None` status is returned as an error with no fix-up. With a destination no-data value the output ends as `FixedUp`; without one it is left as the engine wrote it |
| `CreateAndReproject.WarpReprojectScenario` | src/raster/warp/create_and_reproject.rs:219-232 | the `warp_reproject` set-up (GTiff, destination no-data 255.0, nearest neighbour): on success every output band records 255.0, and the engine was asked for the GTiff driver, nearest neighbour, no source SRS and 255.0 for every source band |

## Left out

- `src/raster/warp/mod.rs`: `create_and_reproject` only delegates to `create_and_reproject_image`, and `reproject_image` is one engine call with fixed arguments (bilinear, no SRS, zero error).
- The warp engine (`GDALCreateAndReprojectImage`) is an opaque function of its arguments and the files on disk, returning a status and the files it leaves. Resampling math and memory-limit semantics are not modelled. The null transformer and progress arguments are fixed in the source and not recorded.
- `warp_options.rs` is not part of this model. `GdalWarpOptions` is reduced to the fields listed above, with the following assumptions:
  - Applying a no-data value fails unless a positive band count has been set. GDAL's band count of zero means unset, and zero bands leave no per-band storage to fill.
  - The default configuration has no band count, no per-band no-data values, no working datatype, nearest-neighbour resampling and a zero memory limit.
  - How the auto working datatype is derived is not modelled; the model only records that it was chosen.
- These foreign operations are `Env` functions whose failures are arbitrary errors: SRS-to-WKT serialisation, path conversion, driver lookup, and fetching a band and setting its no-data value. `Dataset::open` is reduced to "a dataset is stored under the path".
- The text of GDAL error messages is not modelled. An engine failure carries the status class and `Env.lastMessage`.
- The setters return nothing. The `&mut Self` they return in the source only allows chaining.
- The statistics comparison in the `warp_reproject` test is left out, because it uses floating-point tolerance and fixture files.
- Concurrency and thread-safety of dataset handles are left out. Nothing in the core is concurrent.
