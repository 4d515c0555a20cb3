/** How blob-storage operations end (ctf-registry/storage/storage.go, ctf-registry/storage/errors.go). */
module StorageApi {
  import opened Common

  datatype Error = StorageFail | NotVerified

  datatype Result = Uploaded(size: nat) | Stored(d: Digest) | Failed(e: Error)
}
