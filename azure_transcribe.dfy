/** The part of `transcribe_wav` (azure_transcribe.rs) that decides, before and after
    the request, what the call returns: the configuration checks and the request URL,
    and the outcome for the response's status and body.  The file read, the request
    and the JSON parser are not part of this model; `Transcribe` takes them as
    parameters. */
module AzureTranscribe {
  import opened Wrappers
  import opened Text

  /** The `azure` section of the configuration. */
  datatype AzureConfig = AzureConfig(apiKey: string, endpoint: string, deployment: string, apiVersion: string)

  /** The validated, trimmed values the request uses. */
  datatype Request = Request(url: string, apiKey: string)

  /** The endpoint with surrounding whitespace and then every trailing `/` removed. */
  function NormalizeEndpoint(endpoint: string): string
  {
    TrimEndMatches(Trim(endpoint), '/')
  }

  /** The request URL for an endpoint, deployment and API version. */
  function TranscriptionUrl(endpoint: string, deployment: string, apiVersion: string): string
  {
    endpoint + "/openai/deployments/" + deployment + "/audio/transcriptions?api-version=" + apiVersion
  }

  /** Lines 11-31 of `transcribe_wav`: the four checks, in order, then the URL. */
  function Prepare(cfg: AzureConfig): Result<Request, string>
  {
    var apiKey := Trim(cfg.apiKey);
    if apiKey == [] then Err("Azure apiKey is empty")
    else
      var endpoint := NormalizeEndpoint(cfg.endpoint);
      if endpoint == [] then Err("Azure endpoint is empty")
      else
        var deployment := Trim(cfg.deployment);
        if deployment == [] then Err("Azure deployment is empty")
        else
          var apiVersion := Trim(cfg.apiVersion);
          if apiVersion == [] then Err("Azure apiVersion is empty")
          else Ok(Request(TranscriptionUrl(endpoint, deployment, apiVersion), apiKey))
  }

  /** Lines 63-70: a failure status gives an error carrying the status and the whole
      body; a success status gives the parser's verdict on the body, whose error is
      prefixed. */
  function Outcome(success: bool, status: string, body: string, parse: string -> Result<string, string>): Result<string, string>
  {
    if !success then Err("transcription failed (" + status + "): " + body)
    else
      match parse(body)
      case Ok(text) => Ok(text)
      case Err(e) => Err("failed to parse response json: " + e)
  }

  /** What the request returns: whether the status is a success, the status as
      displayed, and the body. */
  datatype Response = Response(success: bool, status: string, body: string)

  /** The whole of `transcribe_wav`.  Reading the WAV file, building the form and
      sending the request are the parameter `send`, which is given the validated
      request and returns the response or the error message of whichever of those
      steps failed; parsing the JSON body is the parameter `parse`. */
  function Transcribe(cfg: AzureConfig, send: Request -> Result<Response, string>,
                      parse: string -> Result<string, string>): Result<string, string>
  {
    match Prepare(cfg)
    case Err(e) => Err(e)
    case Ok(req) =>
      match send(req)
      case Err(e) => Err(e)
      case Ok(resp) => Outcome(resp.success, resp.status, resp.body, parse)
  }

  /** A string whose characters are all whitespace. */
  predicate Blank(s: string)
  {
    forall i :: 0 <= i < |s| ==> IsWhitespace(s[i])
  }

  // ---------------------------------------------------------------------------
  // The checks

  /** The checks come in a fixed order and the first field that is blank once trimmed
      decides the message; none passes a blank field. */
  lemma {:induction false} CheckOrder(cfg: AzureConfig)
    ensures Blank(cfg.apiKey) ==> Prepare(cfg) == Err("Azure apiKey is empty")
    ensures !Blank(cfg.apiKey) && NormalizeEndpoint(cfg.endpoint) == []
            ==> Prepare(cfg) == Err("Azure endpoint is empty")
    ensures !Blank(cfg.apiKey) && NormalizeEndpoint(cfg.endpoint) != [] && Blank(cfg.deployment)
            ==> Prepare(cfg) == Err("Azure deployment is empty")
    ensures !Blank(cfg.apiKey) && NormalizeEndpoint(cfg.endpoint) != [] && !Blank(cfg.deployment) && Blank(cfg.apiVersion)
            ==> Prepare(cfg) == Err("Azure apiVersion is empty")
    ensures Prepare(cfg).Ok? <==>
            !Blank(cfg.apiKey) && NormalizeEndpoint(cfg.endpoint) != [] && !Blank(cfg.deployment) && !Blank(cfg.apiVersion)
  {
    TrimEmptyIffBlank(cfg.apiKey);
    TrimEmptyIffBlank(cfg.deployment);
    TrimEmptyIffBlank(cfg.apiVersion);
  }

  /** On a valid configuration the URL is built from the trimmed values, the endpoint
      stripped of trailing slashes, and the key sent is the trimmed key. */
  lemma {:induction false} ValidRequest(cfg: AzureConfig)
    requires Prepare(cfg).Ok?
    ensures Prepare(cfg).value.url
            == NormalizeEndpoint(cfg.endpoint) + "/openai/deployments/" + Trim(cfg.deployment)
               + "/audio/transcriptions?api-version=" + Trim(cfg.apiVersion)
    ensures Prepare(cfg).value.apiKey == Trim(cfg.apiKey) != []
  {
  }

  /** The normalised endpoint is a prefix of the trimmed endpoint, what it drops is all
      `/`, and it does not itself end in `/`; so the URL never has `//` before
      `openai`. */
  lemma {:induction false} EndpointNormalized(endpoint: string)
    ensures var t := Trim(endpoint);
      var e := NormalizeEndpoint(endpoint);
      && |e| <= |t| && e == t[..|e|]
      && (forall i :: |e| <= i < |t| ==> t[i] == '/')
      && (e == [] || e[|e| - 1] != '/')
  {
  }

  /** The endpoint check rejects an endpoint exactly when, once trimmed, it is made
      only of `/`. */
  lemma {:induction false} EndpointRejectedIffSlashes(endpoint: string)
    ensures NormalizeEndpoint(endpoint) == [] <==> forall i :: 0 <= i < |Trim(endpoint)| ==> Trim(endpoint)[i] == '/'
  {
    var t := Trim(endpoint);
    var e := NormalizeEndpoint(endpoint);
    if forall i :: 0 <= i < |t| ==> t[i] == '/' {
      if e != [] {
        assert e[|e| - 1] == t[|e| - 1];
      }
    }
  }

  /** Slashes and whitespace mixed are not all rejected: `/ /` trims to itself and
      keeps `/ ` once its last slash is gone. */
  lemma {:induction false} SlashSpaceSlashAccepted()
    ensures NormalizeEndpoint("/ /") == "/ "
  {
    assert TrimStart("/ /") == "/ /";
    assert TrimEnd("/ /") == "/ /";
    assert Trim("/ /") == "/ /";
    assert TrimEndMatches("/ ", '/') == "/ ";
  }

  // ---------------------------------------------------------------------------
  // The outcome

  /** A failure status always gives an error that embeds the status and the whole body;
      the parser is consulted only on success, and then decides. */
  lemma {:induction false} OutcomeDecision(success: bool, status: string, body: string, parse: string -> Result<string, string>)
    ensures !success ==> Outcome(success, status, body, parse) == Err("transcription failed (" + status + "): " + body)
    ensures Outcome(success, status, body, parse).Ok? <==> success && parse(body).Ok?
    ensures Outcome(success, status, body, parse).Ok? ==> Outcome(success, status, body, parse).value == parse(body).value
  {
  }

  /** Whatever the parser says, a failure status gives the same error: the body is not
      parsed. */
  lemma {:induction false} FailureIgnoresParser(status: string, body: string, p: string -> Result<string, string>, q: string -> Result<string, string>)
    ensures Outcome(false, status, body, p) == Outcome(false, status, body, q)
  {
  }

  // ---------------------------------------------------------------------------
  // The checks guard the I/O

  /** A configuration that fails a check gives that check's error whatever the file
      read, the request and the parser would do: nothing is read or sent.  A valid
      one sends exactly the prepared request, and a response is decided by
      `Outcome`. */
  lemma {:induction false} ChecksPrecedeIo(cfg: AzureConfig,
                                           send: Request -> Result<Response, string>, send': Request -> Result<Response, string>,
                                           parse: string -> Result<string, string>, parse': string -> Result<string, string>)
    ensures Prepare(cfg).Err? ==> Transcribe(cfg, send, parse) == Err(Prepare(cfg).error)
    ensures Prepare(cfg).Err? ==> Transcribe(cfg, send, parse) == Transcribe(cfg, send', parse')
    ensures Prepare(cfg).Ok? && send(Prepare(cfg).value).Err? ==>
            Transcribe(cfg, send, parse) == Err(send(Prepare(cfg).value).error)
    ensures Prepare(cfg).Ok? && send(Prepare(cfg).value).Ok? ==>
            var r := send(Prepare(cfg).value).value;
            Transcribe(cfg, send, parse) == Outcome(r.success, r.status, r.body, parse)
  {
  }
}
