/**
 * The values that cross the facade: the object-store client's own metadata and
 * object shapes, and the facade's `CephObjectMetadata` / `CephObject`.
 */
module CephModel {
  import opened Wrappers
  import opened Utf8

  /** A bucket as `listBuckets` reports it; only its name matters here. */
  datatype Bucket = Bucket(name: string)

  /**
   * The client's `ObjectMetadata`: the Content-Type header (absent when never set),
   * the user metadata, and the Content-Length header (absent when never set).
   */
  datatype ObjectMetadata = ObjectMetadata(
    contentType: Option<string>,
    userMetadata: map<string, string>,
    contentLength: Option<int>)

  /** The client's `S3Object`: a key, its metadata and its content (a drained stream). */
  datatype S3Object = S3Object(key: string, metadata: ObjectMetadata, content: seq<Byte>)

  /** One entry of a listing (`S3ObjectSummary`); the facades read only its key. */
  datatype S3ObjectSummary = S3ObjectSummary(key: string)

  /** The facade's own metadata value. */
  datatype CephObjectMetadata = CephObjectMetadata(
    contentType: Option<string>,
    userMetadata: map<string, string>,
    contentLength: int)

  /** The facade's object: converted metadata and the content. */
  datatype CephObject = CephObject(metadata: CephObjectMetadata, content: seq<Byte>)

  /** `ObjectMetadata.getContentLength`: the header's value, 0 when it was never set. */
  function ContentLengthOf(metadata: ObjectMetadata): (n: int)
    ensures metadata.contentLength.Some? ==> n == metadata.contentLength.value
    ensures metadata.contentLength.None? ==> n == 0
  {
    if metadata.contentLength.Some? then metadata.contentLength.value else 0
  }
}
