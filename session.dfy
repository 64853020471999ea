/** `session.py`: the session record and the process-wide holder of the one
    default session, initialised from the environment. */
module Session {
  import opened Wrappers
  import opened Graph

  const DefaultSessionId: string := "default"
  const DefaultApiUrl: string := "https://kumorfm.ai/api"
  /** `api_key[:8]`: how many characters of the key `to_dict` reveals. */
  const RevealedKeyChars: nat := 8

  /** The KumoRFM model object; the tools only test whether it is present. */
  datatype ModelHandle = ModelHandle(token: nat)

  /** The dictionary `SessionData.to_dict` returns. */
  datatype SessionDict = SessionDict(
    sessionId: string,
    initialized: bool,
    apiUrl: Option<string>,
    apiKey: Option<string>)

  /** The `api_key` entry of `to_dict`: the first eight characters and
      `"..."`, or `None` for an absent or empty (falsy) key. */
  function MaskKey(key: Option<string>): (masked: Option<string>)
    ensures masked.None? <==> key.None? || key.value == ""
    ensures masked.Some? ==>
      var m := masked.value;
      && |m| == Min(RevealedKeyChars, |key.value|) + 3
      && m[..|m| - 3] <= key.value
      && m[|m| - 3..] == "..."
  {
    if key.None? || key.value == "" then None
    else
      var k := key.value;
      Some(k[..Min(RevealedKeyChars, |k|)] + "...")
  }

  /** Keys that agree on their first eight characters are masked alike: the
      rest of the key never reaches `to_dict`. */
  lemma MaskKeyDependsOnPrefixOnly(k1: string, k2: string)
    requires |k1| >= RevealedKeyChars && |k2| >= RevealedKeyChars
    requires k1[..RevealedKeyChars] == k2[..RevealedKeyChars]
    ensures MaskKey(Some(k1)) == MaskKey(Some(k2))
  {
  }

  /** `KUMO_API_URL` when set and non-empty, the default URL otherwise. */
  function ResolveApiUrl(envApiUrl: Option<string>): (url: string)
    ensures envApiUrl.None? || envApiUrl.value == "" ==> url == DefaultApiUrl
    ensures envApiUrl.Some? && envApiUrl.value != "" ==> url == envApiUrl.value
    ensures url != ""
  {
    if envApiUrl.None? || envApiUrl.value == "" then DefaultApiUrl else envApiUrl.value
  }

  /** `if api_key:` — the key is present and non-empty. */
  predicate HasApiKey(envApiKey: Option<string>): (present: bool)
    ensures present <==> MaskKey(envApiKey).Some?
  {
    envApiKey.Some? && envApiKey.value != ""
  }

  /** `SessionData`: one mutable session record. */
  class SessionData {
    var sessionId: string
    var initialized: bool
    var graph: Graph
    var model: Option<ModelHandle>
    var apiUrl: Option<string>
    var apiKey: Option<string>

    /** The field defaults of `SessionData(session_id=...)`. */
    constructor (sessionId: string := DefaultSessionId)
      ensures this.sessionId == sessionId && !initialized
      ensures graph == EmptyGraph && model == None
      ensures apiUrl == None && apiKey == None
    {
      this.sessionId := sessionId;
      initialized := false;
      graph := EmptyGraph;
      model := None;
      apiUrl := None;
      apiKey := None;
    }

    /** `to_dict`: identity, flag and URL copied, the key masked. */
    function ToDict(): (d: SessionDict)
      reads this
      ensures d.sessionId == sessionId && d.initialized == initialized && d.apiUrl == apiUrl
      ensures d.apiKey == MaskKey(apiKey)
      ensures d.apiKey.Some? ==> |d.apiKey.value| <= RevealedKeyChars + 3
    {
      SessionDict(sessionId, initialized, apiUrl, MaskKey(apiKey))
    }
  }

  /** `SessionState`: holds the single shared `SessionData`. */
  class SessionState {
    const sessionData: SessionData

    /** The class attribute `_session_data = SessionData(session_id="default")`. */
    constructor ()
      ensures fresh(sessionData)
      ensures sessionData.sessionId == DefaultSessionId && !sessionData.initialized
      ensures sessionData.graph == EmptyGraph && sessionData.model == None
      ensures sessionData.apiUrl == None && sessionData.apiKey == None
    {
      sessionData := new SessionData(DefaultSessionId);
    }

    /** `get_session`: every call hands out the same object. */
    method GetSession() returns (session: SessionData)
      ensures session == sessionData
    {
      session := sessionData;
    }

    /** `initialize`: reads `KUMO_API_KEY` and `KUMO_API_URL` (given here as
        `envApiKey` and `envApiUrl`) and calls `kumo.init`, whose outcome for
        a key and URL is `kumoInit`. With a key, the key, the URL and
        `initialized := true` are stored before `kumo.init` runs, and only the
        flag is reset when it raises. Without a key only the flag is written. */
    method Initialize(envApiKey: Option<string>, envApiUrl: Option<string>,
                      kumoInit: (string, string) -> Attempt<()>)
      modifies sessionData`apiKey, sessionData`apiUrl, sessionData`initialized
      ensures HasApiKey(envApiKey) ==>
        && sessionData.apiKey == envApiKey
        && sessionData.apiUrl == Some(ResolveApiUrl(envApiUrl))
        && (sessionData.initialized <==>
              kumoInit(envApiKey.value, ResolveApiUrl(envApiUrl)).Returned?)
      ensures !HasApiKey(envApiKey) ==>
        && !sessionData.initialized
        && sessionData.apiKey == old(sessionData.apiKey)
        && sessionData.apiUrl == old(sessionData.apiUrl)
    {
      var apiKey := envApiKey;
      var apiUrl := envApiUrl;
      if apiUrl.None? || apiUrl.value == "" {
        apiUrl := Some(DefaultApiUrl);
      }
      var session := GetSession();
      if apiKey.Some? && apiKey.value != "" {
        session.apiKey := apiKey;
        session.apiUrl := apiUrl;
        session.initialized := true;
        var init := kumoInit(apiKey.value, apiUrl.value);
        if init.Raised? {
          session.initialized := false;
        }
      } else {
        session.initialized := false;
      }
    }
  }
}
