/**
 * Configuration and provider selection (src/common.py): the process
 * environment as a map, URL normalisation for psycopg, the required-variable
 * check, the default provider guessed from API keys, and one step of the
 * interactive provider prompt.
 */
module Common {
  import opened Wrappers
  import opened Text
  import opened Seqs

  /** The process environment after `.env` has been loaded. */
  type Env = map<string, string>

  /** `os.getenv(name, default)`. */
  function GetEnv(env: Env, name: string, default: string): string {
    if name in env then env[name] else default
  }

  /** `not os.getenv(name)`: the variable is unset or empty. */
  predicate IsUnset(env: Env, name: string) {
    name !in env || env[name] == ""
  }

  // ---------------------------------------------------------------
  // URL normalisation
  // ---------------------------------------------------------------

  /** The SQLAlchemy-style scheme that names the psycopg driver. */
  const DriverScheme := "postgresql+psycopg://"

  /** The scheme psycopg itself accepts. */
  const PlainScheme := "postgresql://"

  /** `normalize_for_psycopg`: drop the `+psycopg` driver tag from the scheme. */
  function NormalizeForPsycopg(url: string): (r: string)
    ensures StartsWith(url, DriverScheme) ==> r == PlainScheme + url[|DriverScheme|..]
    ensures !StartsWith(url, DriverScheme) ==> r == url
  {
    if StartsWith(url, DriverScheme) then
      ReplaceFirstOfPrefix(url, DriverScheme, PlainScheme);
      ReplaceFirst(url, DriverScheme, PlainScheme)
    else
      url
  }

  /** A normalised URL is left alone by a second normalisation. */
  lemma NormalizeIdempotent(url: string)
    ensures NormalizeForPsycopg(NormalizeForPsycopg(url)) == NormalizeForPsycopg(url)
  {
    var r := NormalizeForPsycopg(url);
    if StartsWith(url, DriverScheme) {
      assert r[10] == ':' != DriverScheme[10];
      assert !StartsWith(r, DriverScheme);
    }
  }

  // ---------------------------------------------------------------
  // Required environment variables
  // ---------------------------------------------------------------

  /** The `missing_vars` comprehension. */
  function MissingVars(required: seq<string>, env: Env): (r: seq<string>)
    ensures |r| <= |required|
    ensures forall v :: v in r <==> v in required && IsUnset(env, v)
    ensures IsSubsequence(r, required)
    ensures forall v :: multiset(r)[v] == if IsUnset(env, v) then multiset(required)[v] else 0
  {
    if required == [] then []
    else
      var rest := MissingVars(required[1..], env);
      assert required == [required[0]] + required[1..];
      if IsUnset(env, required[0]) then [required[0]] + rest
      else
        assert rest == [] || rest[0] != required[0];
        rest
  }

  /** What `validate_environment` does: return, or raise `EnvironmentError`. */
  datatype EnvCheck = Passed | MissingEnvironment(vars: seq<string>)

  /** `validate_environment(required_vars)`; `None` for the default argument. */
  function ValidateEnvironment(required: Option<seq<string>>, env: Env): (r: EnvCheck)
    ensures required.None? ==> r == Passed
    ensures required.Some? ==>
      (r == Passed <==> forall v :: v in required.value ==> !IsUnset(env, v))
    ensures r.MissingEnvironment? ==>
      required.Some? && r.vars != [] && r.vars == MissingVars(required.value, env)
  {
    if required.None? then Passed
    else
      var missing := MissingVars(required.value, env);
      if missing != [] then
        assert missing[0] in missing;
        MissingEnvironment(missing)
      else Passed
  }

  // ---------------------------------------------------------------
  // Providers
  // ---------------------------------------------------------------

  const OpenAI := "openai"
  const Google := "google"

  /** The backend `get_llm` and `get_embeddings` build for a provider string. */
  datatype Backend = OpenAIBackend | GoogleBackend

  /** `get_llm` / `get_embeddings`: Google for exactly `"google"`, OpenAI otherwise. */
  function BackendFor(provider: string): (b: Backend)
    ensures b == GoogleBackend <==> provider == Google
  {
    if provider == Google then GoogleBackend else OpenAIBackend
  }

  /** `pick_default_provider_from_env`, given the two keys (`""` when unset). */
  function PickDefaultProvider(openaiKey: string, googleKey: string): (r: Option<string>)
    ensures r == Some(OpenAI) <==> HasText(openaiKey) && !HasText(googleKey)
    ensures r == Some(Google) <==> HasText(googleKey) && !HasText(openaiKey)
    ensures r == None <==> HasText(openaiKey) == HasText(googleKey)
  {
    var hasOpenai := Strip(openaiKey) != [];
    var hasGoogle := Strip(googleKey) != [];
    if hasOpenai && !hasGoogle then Some(OpenAI)
    else if hasGoogle && !hasOpenai then Some(Google)
    else None
  }

  /** `pick_default_provider_from_env` reading the process environment. */
  function PickDefaultProviderFromEnv(env: Env): (r: Option<string>)
    ensures r.Some? ==> r.value == OpenAI || r.value == Google
    ensures r == Some(OpenAI) ==> HasText(GetEnv(env, "OPENAI_API_KEY", ""))
    ensures r == Some(Google) ==> HasText(GetEnv(env, "GOOGLE_API_KEY", ""))
  {
    PickDefaultProvider(GetEnv(env, "OPENAI_API_KEY", ""), GetEnv(env, "GOOGLE_API_KEY", ""))
  }

  /** The outcome of one round of the provider prompt. */
  datatype Choice = Chosen(provider: string) | Reprompt

  /** The line the prompt works on: stripped input, or `""` at end of input. */
  function Selection(line: Option<string>): string {
    if line.Some? then Strip(line.value) else ""
  }

  /** `if default:` for `default: Provider | None`. */
  predicate IsTruthy(default: Option<string>) {
    default.Some? && default.value != ""
  }

  /** The case-insensitive provider names the prompt accepts. */
  predicate IsProviderName(sel: string) {
    Lower(sel) == OpenAI || Lower(sel) == Google
  }

  /** The `choices` table: `"1"` for OpenAI, `"2"` for Google. */
  function Numbered(sel: string): Option<string> {
    if sel == "1" then Some(OpenAI) else if sel == "2" then Some(Google) else None
  }

  /**
   * One pass of the `while True` loop in `ask_provider_interactively`, as
   * written: a name typed in another case is returned as typed.
   */
  function AskProviderStep(default: Option<string>, line: Option<string>): (c: Choice)
    ensures Selection(line) == "" && IsTruthy(default) ==> c == Chosen(default.value)
    ensures Selection(line) == "1" ==> c == Chosen(OpenAI)
    ensures Selection(line) == "2" ==> c == Chosen(Google)
    ensures IsProviderName(Selection(line)) ==> c == Chosen(Selection(line))
    ensures c == Reprompt <==>
      !(Selection(line) == "" && IsTruthy(default)) && Numbered(Selection(line)).None?
      && !IsProviderName(Selection(line))
  {
    var sel := Selection(line);
    if sel == "" && IsTruthy(default) then Chosen(default.value)
    else if Numbered(sel).Some? then Chosen(Numbered(sel).value)
    else if IsProviderName(sel) then Chosen(sel)
    else Reprompt
  }

  /**
   * End of input with no default prompts again; when standard input is
   * closed, every later round does the same, so the prompt never returns.
   */
  lemma EndOfInputWithoutDefaultReprompts(default: Option<string>)
    requires !IsTruthy(default)
    ensures AskProviderStep(default, None) == Reprompt
  {
    assert Lower("") == "";
  }

  /** A provider named as `"Google"` is returned as typed and then builds the OpenAI backend. */
  lemma MixedCaseGoogleBuildsOpenAI()
    ensures AskProviderStep(None, Some("Google")) == Chosen("Google")
    ensures BackendFor("Google") == OpenAIBackend
  {
    assert LeadingSpaces("Google") == 0;
    assert TrailingSpaces("Google") == 0;
    assert Strip("Google") == "Google";
    assert Lower("Google") == Google;
  }

  /** One pass of the provider prompt returning the provider name in lower case. */
  function AskProviderStepLowered(default: Option<string>, line: Option<string>): (c: Choice)
    ensures Selection(line) == "" && IsTruthy(default) ==> c == Chosen(default.value)
    ensures Selection(line) == "1" ==> c == Chosen(OpenAI)
    ensures Selection(line) == "2" ==> c == Chosen(Google)
    ensures IsProviderName(Selection(line)) ==> c == Chosen(Lower(Selection(line)))
    ensures (c == Reprompt) == (AskProviderStep(default, line) == Reprompt)
  {
    var sel := Selection(line);
    if sel == "" && IsTruthy(default) then Chosen(default.value)
    else if Numbered(sel).Some? then Chosen(Numbered(sel).value)
    else if IsProviderName(sel) then Chosen(Lower(sel))
    else Reprompt
  }

  /**
   * With the lower-cased step, whatever is typed explicitly is a provider
   * name, and the backend built is the one the user named.
   */
  lemma LoweredChoiceBuildsNamedBackend(default: Option<string>, line: Option<string>)
    requires default.Some? ==> default.value == OpenAI || default.value == Google
    ensures AskProviderStepLowered(default, line).Chosen? ==>
      AskProviderStepLowered(default, line).provider in {OpenAI, Google}
    ensures AskProviderStepLowered(default, line).Chosen? && Selection(line) != "" ==>
      (BackendFor(AskProviderStepLowered(default, line).provider) == GoogleBackend
       <==> Selection(line) == "2" || Lower(Selection(line)) == Google)
  {
  }

  /**
   * The backend a session runs on, as written: the default guessed from the
   * API keys, one round of the provider prompt, then the backend `get_llm` /
   * `get_embeddings` build. `None` means the prompt asks again.
   */
  function SessionBackend(env: Env, line: Option<string>): (b: Option<Backend>)
    ensures b.None? <==> AskProviderStep(PickDefaultProviderFromEnv(env), line) == Reprompt
    ensures Selection(line) == "" && PickDefaultProviderFromEnv(env).Some? ==>
      b == Some(BackendFor(PickDefaultProviderFromEnv(env).value))
    ensures b == Some(GoogleBackend) <==>
      || (Selection(line) == "" && PickDefaultProviderFromEnv(env) == Some(Google))
      || Selection(line) == "2"
      || Selection(line) == Google
  {
    ChosenGoogle(PickDefaultProviderFromEnv(env), line);
    match AskProviderStep(PickDefaultProviderFromEnv(env), line)
    case Reprompt => None
    case Chosen(p) => Some(BackendFor(p))
  }

  /**
   * As written, the prompt step yields `"google"` exactly for an empty line
   * with that default, for `2`, and for `google` typed in lower case.
   */
  lemma ChosenGoogle(default: Option<string>, line: Option<string>)
    requires default.Some? ==> default.value == OpenAI || default.value == Google
    ensures AskProviderStep(default, line) == Chosen(Google) <==>
      || (Selection(line) == "" && default == Some(Google))
      || Selection(line) == "2"
      || Selection(line) == Google
  {
    var sel := Selection(line);
    if sel == Google {
      assert Lower(sel) == Google;
    }
  }

  /** As written, a session whose provider line is `Google` runs on OpenAI. */
  lemma MixedCaseGoogleSessionUsesOpenAI(env: Env)
    ensures SessionBackend(env, Some("Google")) == Some(OpenAIBackend)
  {
    MixedCaseGoogleBuildsOpenAI();
    assert Selection(Some("Google")) == "Google";
  }

  /**
   * The same composition on the lower-cased prompt step: the provider name
   * typed, in any case, selects its backend.
   */
  function SessionBackendLowered(env: Env, line: Option<string>): (b: Option<Backend>)
    ensures Selection(line) == "" && PickDefaultProviderFromEnv(env).Some? ==>
      b == Some(BackendFor(PickDefaultProviderFromEnv(env).value))
    ensures Selection(line) == "2" || Lower(Selection(line)) == Google ==> b == Some(GoogleBackend)
    ensures Selection(line) == "1" || Lower(Selection(line)) == OpenAI ==> b == Some(OpenAIBackend)
    ensures b.None? <==> AskProviderStep(PickDefaultProviderFromEnv(env), line) == Reprompt
  {
    match AskProviderStepLowered(PickDefaultProviderFromEnv(env), line)
    case Reprompt => None
    case Chosen(p) => Some(BackendFor(p))
  }
}
