/** The action fingerprint both deduplication layers compute
    (orchestrator/orchestrator.py and responders/responder.py): SHA-1 of
    the canonical JSON text. SHA-1 itself (FIPS 180-4) is a parameter of
    the model, so only the text it is applied to is reasoned about. */
module Dedup {
  import opened Json

  /** `action_fingerprint(action)`: the digest of
      `json.dumps(action, sort_keys=True, separators=(",", ":"))`. The
      text is ASCII, so encoding it as UTF-8 changes nothing. */
  function Fingerprint(action: Value, sha1: string -> string): string {
    sha1(Dumps(action))
  }

  /** Actions that Python's `==` calls equal, in particular ones that
      differ only in the order of their keys, have the same fingerprint
      whatever the hash function. */
  lemma FingerprintIgnoresKeyOrder(a: Value, b: Value, sha1: string -> string)
    requires WellFormed(a) && WellFormed(b) && SameUpToKeyOrder(a, b)
    ensures Fingerprint(a, sha1) == Fingerprint(b, sha1)
  {
    DumpsIgnoresKeyOrder(a, b);
  }
}
