/** Audio files as the forms and the recorder see them, and the limits the
    forms put on them. */
module Media {

  /** A browser `File`: its name, its MIME type and its size in bytes. */
  datatype AudioFile = AudioFile(name: string, mime: string, size: nat)

  /** The largest accepted upload: 10,000,000 bytes. */
  const MaxAudioBytes: nat := 10000000

  /** The four accepted MIME types. */
  const AllowedMimeTypes: seq<string> := ["audio/mp3", "audio/ogg", "audio/mpeg", "audio/wav"]

  predicate MimeAllowed(mime: string) {
    mime in AllowedMimeTypes
  }

  predicate SizeAllowed(size: nat) {
    size <= MaxAudioBytes
  }
}
