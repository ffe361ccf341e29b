/**
 Values shared by the reprojection options and the create-and-reproject
 orchestration: the Rust `Option`/`Result` shapes, the opaque `f64`, C strings,
 spatial references, drivers, datasets and the files on disk.
 */
module Gdal {

  datatype Option<T> = None | Some(value: T) {
    /** Rust's `unwrap_or`. */
    function UnwrapOr(default: T): T {
      match this
      case Some(v) => v
      case None => default
    }
  }

  datatype Result<T, E> = Ok(value: T) | Err(error: E)

  /** An IEEE-754 double held as its bit pattern. The core only stores and
      compares these values, it never computes with them. */
  datatype F64 = F64(bits: bv64)

  /** `0.0` (positive zero: every bit clear). */
  const ZERO: F64 := F64(0)

  /** A file-system path, as text. */
  type Path = string

  /** A C string: text without an interior NUL. */
  type CString = s: string | '\0' !in s

  /** The status classes of GDAL's `CPLErr`. */
  datatype CplErr = CeNone | CeDebug | CeWarning | CeFailure | CeFatal

  /** Which of the two per-band no-data arrays an operation addresses. */
  datatype NoDataSide = Source | Destination

  datatype GdalError =
    /** `CString::new` met an interior NUL. */
    | FfiNulError
    /** A per-band no-data value was applied before the band count was set. */
    | BandCountUnset(side: NoDataSide)
    /** A GDAL call returned a null handle. */
    | NullPointer(methodName: string)
    /** A GDAL call returned a non-`CE_None` status; carries the last message. */
    | CplError(errClass: CplErr, message: string)
    /** Any other error reported by a foreign capability. */
    | Foreign(code: int)

  /** `CString::new`: fails exactly when the text holds a NUL. */
  function NewCString(s: string): (r: Result<CString, GdalError>)
    ensures r.Ok? <==> '\0' !in s
    ensures r.Ok? ==> r.value == s
    ensures r.Err? ==> r.error == FfiNulError
  {
    if '\0' in s then Err(FfiNulError) else var c: CString := s; Ok(c)
  }

  /** A coordinate system definition; its text form comes from a foreign
      serialiser (`Env.toWkt`). */
  datatype SpatialRef = SpatialRef(definition: string)

  /** A raster format driver, known by its short name (`GTiff`, `COG`, ...). */
  datatype Driver = Driver(shortName: string)

  /** An open raster dataset: its driver and, per band (band `b` at index
      `b - 1`), the no-data value recorded in its metadata. */
  datatype Dataset = Dataset(driver: Driver, bandNoData: seq<Option<F64>>) {
    function RasterCount(): nat {
      |bandNoData|
    }
  }

  /** The raster files on disk, by path. */
  type Store = map<Path, Dataset>
}
