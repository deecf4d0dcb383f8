/**
 Values shared by every part of the broker: an optional value (Python's `None`
 or a value), the bytes of a raw request body, and the start-up configuration
 that the application reads once from its environment.
 */
module Common {

  /** Some value, or Python's `None`. */
  datatype Option<+T> = None | Some(value: T) {

    /** The wrapped value, or `default` when there is none (`dict.get(key, default)`). */
    function GetOr(default: T): (r: T)
      ensures Some? ==> r == value
      ensures None? ==> r == default
    {
      match this
      case Some(v) => v
      case None => default
    }
  }

  /** Python truthiness of a value that is either `None` or a string: present and non-empty. */
  predicate Truthy(o: Option<string>) {
    o.Some? && o.value != ""
  }

  /** One octet of a raw HTTP body. */
  newtype byte = b: int | 0 <= b < 256

  /**
   The three settings the handlers consult: the chat webhook address
   (`TEAMS_WEBHOOK_URL`), the public base address used to build the
   approve/reject links (`BASE_PUBLIC_URL`) and the shared HMAC key
   (`HMAC_KEY`). Each defaults to the empty string when unset.
   */
  datatype Config = Config(teamsWebhookUrl: string, basePublicUrl: string, hmacKey: string)
}
