/** Files the client attaches to a multipart request and the server receives. */
module Media {

  /** An uploaded image, video or camera capture: its file name and bytes. */
  datatype MediaFile = MediaFile(name: string, content: seq<int>)
}
