/** The image host the team forms upload crests to, seen from the client:
    the file the browser hands over and the host's answer. The HTTP request
    itself is not modelled; its answer is a parameter of the methods that wait for it. */
module MediaHost {

  /** A browser `File`: its name, MIME type and size in bytes. */
  datatype ImageFile = ImageFile(name: string, mimeType: string, size: nat)

  /** The host's answer: the `secure_url` of the stored image, or any failure
      (a non-OK response or a network error). */
  datatype UploadResult = Uploaded(secureUrl: string) | UploadFailed
}
