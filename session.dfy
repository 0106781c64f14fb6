/** Streamlit's `session_state` as far as the login component uses it: a
    mapping from keys to `Account` objects, written by `azure_login`. */
module Session {
  import opened PyValues
  import opened Accounts

  /** The default `key` of `azure_login`, and the only key `token_required`
      reads. */
  const DefaultKey: string := "account"

  /** What `azure_login` leaves behind: the account was stored, or `Account`
      construction raised `ValueError` before anything was written. */
  datatype LoginOutcome = Stored | InvalidExpiry(input: string)

  class SessionState {
    var entries: map<string, Account>

    constructor ()
      ensures entries == map[]
    {
      entries := map[];
    }

    /** `session_state.account`: the entry under `"account"`, `null` when there
        is none. */
    function Current(): (a: Account?)
      reads this
      ensures a != null <==> DefaultKey in entries
      ensures a != null ==> a == entries[DefaultKey]
    {
      if DefaultKey in entries then entries[DefaultKey] else null
    }

    /** The session write at the end of `azure_login`, given the payload
        `auth` that the login widget returned. Whether or not `key` was
        present, its entry becomes a freshly built `Account` that describes
        `auth` alone (nothing of an earlier entry is merged in), and no other
        key changes. When the expiry does not parse, nothing is written. */
    method AzureLogin(key: string, auth: Payload, parse: string -> Option<DateTime>)
      returns (outcome: LoginOutcome)
      modifies this
      ensures outcome.InvalidExpiry? <==> InitExpiry(auth.tokenExpireDate, auth.rawTokenExpireDate, parse).Malformed?
      ensures outcome.InvalidExpiry? ==> entries == old(entries)
      ensures outcome.InvalidExpiry? ==> outcome.input == RemoveZ(auth.rawTokenExpireDate.value)
      ensures outcome.Stored? ==> key in entries && fresh(entries[key])
      ensures outcome.Stored? ==> entries == old(entries)[key := entries[key]]
      ensures outcome.Stored? ==> entries[key].Describes(auth, parse)
    {
      if key !in entries {
        var b := Account.FromPayload(auth, parse);
        if b.ParseFailed? {
          return InvalidExpiry(b.input);
        }
        entries := entries[key := b.account];
      } else {
        var b := Account.FromPayload(auth, parse);
        if b.ParseFailed? {
          return InvalidExpiry(b.input);
        }
        entries := entries[key := b.account];
      }
      outcome := Stored;
    }
  }
}
