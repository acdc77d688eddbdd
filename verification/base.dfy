/** Values shared by the services: optional values, JSON request fields as
    JavaScript sees them, the audio content-type test and the upload size
    bound. */
module Base {
  import opened Strings

  datatype Option<T> = None | Some(value: T) {
    /** Python `d.get(key, default)` and JavaScript `x ?? default`. */
    function GetOr(default: T): T {
      match this
      case Some(v) => v
      case None => default
    }
  }

  /** One field of a parsed JSON request body. `Undefined` is a missing key;
      `Other` is any non-string value, with its JavaScript truthiness and
      its `String(value)` rendering. */
  datatype Json = Undefined | Null | Str(s: string) | Other(truthy: bool, rendered: string) {

    /** JavaScript truthiness: `undefined`, `null`, `""` and falsy
        non-strings (`0`, `false`, `NaN`) are falsy. */
    predicate Truthy() {
      match this
      case Undefined => false
      case Null => false
      case Str(s) => s != ""
      case Other(t, _) => t
    }

    /** The value a template literal `${field}` inserts. */
    function Render(): string {
      match this
      case Undefined => "undefined"
      case Null => "null"
      case Str(s) => s
      case Other(_, r) => r
    }

    /** Destructuring with a default, `{ field = d } = body`: the default
        replaces `undefined` only, never `null` or a falsy value. */
    function OrDefault(d: string): Json {
      if Undefined? then Str(d) else this
    }
  }

  /** The upload check `content_type and content_type.startswith('audio/')`
      (Python) and `mimetype.startsWith('audio/')` (JavaScript). */
  predicate IsAudioType(contentType: Option<string>) {
    contentType.Some? && StartsWith(contentType.value, "audio/")
  }

  /** The size limit `20 * 1024 * 1024` bytes used by the upload checks. */
  const TwentyMiB: nat := 20 * 1024 * 1024
}
