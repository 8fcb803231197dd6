/** The API-key manager: a key entered in the session wins, then the
    deployment's secrets store, then the process environment. The secrets
    store and the environment are inputs of the lookup. */
module ApiKeys {
  import opened Wrappers
  import opened Session

  /** How a secrets-store lookup can fail. The first three are the
      failures the manager catches; anything else propagates. */
  datatype SecretsFailure = FileNotFound | KeyMissing | AttributeMissing | OtherFailure(name: string) {
    predicate Caught() {
      !OtherFailure?
    }
  }

  /** The outcome of `st.secrets[key]`. */
  datatype SecretLookup = Secret(value: string) | Fails(failure: SecretsFailure)

  type SecretsStore = string -> SecretLookup

  class TierManager {
    const session: SessionState

    /** `TierManager.__init__`: creates the session's key map when there
        is none and leaves an existing one alone. */
    constructor(session: SessionState)
      modifies session
      ensures this.session == session
      ensures session.userApiKeys == (if old(session.userApiKeys) == None then Some(map[]) else old(session.userApiKeys))
      ensures session.analysisTimes == old(session.analysisTimes) && session.etaPrevious == old(session.etaPrevious)
    {
      this.session := session;
      new;
      if session.userApiKeys == None {
        session.userApiKeys := Some(map[]);
      }
    }

    /** The key the user entered in this session, when it is a non-empty
        string (`user_keys.get(key_name)` is truthy). */
    function SessionKey(keyName: string): Option<string>
      reads session
    {
      var userKeys := session.userApiKeys.GetOr(map[]);
      if keyName in userKeys && userKeys[keyName] != "" then Some(userKeys[keyName]) else None
    }

    /** `get_api_key`: `Ok(None)` when the key is found nowhere, `Err` when
        the secrets store fails in a way the manager does not catch. */
    function ApiKey(keyName: string, secrets: SecretsStore, environment: map<string, string>): (r: Result<Option<string>>)
      reads session
      ensures SessionKey(keyName).Some? ==> r == Ok(SessionKey(keyName))
      ensures SessionKey(keyName).None? && secrets(keyName).Secret? ==> r == Ok(Some(secrets(keyName).value))
      ensures SessionKey(keyName).None? && secrets(keyName).Fails? && secrets(keyName).failure.Caught() ==>
                r == (if keyName in environment then Ok(Some(environment[keyName])) else Ok(None))
      ensures r.Err? <==> SessionKey(keyName).None? && secrets(keyName).Fails? && !secrets(keyName).failure.Caught()
    {
      match SessionKey(keyName)
      case Some(key) => Ok(Some(key))
      case None =>
        match secrets(keyName)
        case Secret(value) => Ok(Some(value))
        case Fails(failure) =>
          if failure.Caught() then Ok(if keyName in environment then Some(environment[keyName]) else None)
          else Err(failure.name)
    }

    /** Each source shadows the ones after it: with a session key, neither
        the secrets store nor the environment matters; with a secret, the
        environment does not. */
    lemma Precedence(keyName: string, secrets: SecretsStore, secrets': SecretsStore,
                     environment: map<string, string>, environment': map<string, string>)
      ensures SessionKey(keyName).Some? ==>
        ApiKey(keyName, secrets, environment) == ApiKey(keyName, secrets', environment')
      ensures secrets(keyName).Secret? ==>
        ApiKey(keyName, secrets, environment) == ApiKey(keyName, secrets, environment')
      ensures (SessionKey(keyName).None? && secrets(keyName).Fails? && secrets(keyName).failure.Caught()
               && keyName !in environment) ==> ApiKey(keyName, secrets, environment) == Ok(None)
    {
    }
  }
}
