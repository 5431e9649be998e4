/**
 * The ideation assistant's command-line core: reading `~/.ideation_config`
 * as `KEY=VALUE` lines, and calling the Hugging Face text-generation API
 * with a bounded number of retries.
 *
 * The file system, the API client, `float()` and `json.loads` are inputs:
 * the config file is `None` when it does not exist and otherwise its lines;
 * each API attempt's outcome is given by its index; float and JSON decoding
 * are functions that fail with `None` or an error message.
 */
module Ideation {
  import opened Wrappers
  import opened Text

  // ---------------------------------------------------------------- configuration

  const DefaultModel: string := "mistralai/Mixtral-8x7B-Instruct-v0.1"
  const DefaultTemperature: real := 0.785
  const DefaultMaxRetries: int := 3

  datatype Config = Config(token: Option<string>, model: string, temperature: real, maxRetries: int)

  const Defaults: Config := Config(None, DefaultModel, DefaultTemperature, DefaultMaxRetries)

  datatype ConfigError =
    | ConfigFileMissing         // IdeationError: the file does not exist
    | NoSeparator(line: string) // ValueError: the stripped line has no '=' to unpack
    | NotAFloat(value: string)  // ValueError from `float(value)`
    | NotAnInt(value: string)   // ValueError from `int(value)`
    | TokenMissing              // IdeationError: no HF_TOKEN line

  /** The `(key, value)` of a line: stripped, then split at its first '='. */
  function KeyValue(line: string): (r: Option<(string, string)>)
    ensures r.None? <==> '=' !in Strip(line)
    ensures r.Some? ==> r.value.0 + "=" + r.value.1 == Strip(line) && '=' !in r.value.0
  {
    SplitOnce(Strip(line), '=')
  }

  /** One line of the loop: the four known keys set their field, any other key is ignored. */
  function ApplyLine(config: Config, line: string, parseReal: string -> Option<real>): (r: Result<Config, ConfigError>)
    ensures r.Err? <==> KeyValue(line).None?
                        || (KeyValue(line).value.0 == "TEMPERATURE" && parseReal(KeyValue(line).value.1).None?)
                        || (KeyValue(line).value.0 == "MAX_RETRIES" && ParseInt(KeyValue(line).value.1).None?)
    ensures r.Ok? && KeyValue(line).value.0 !in {"HF_TOKEN", "MODEL", "TEMPERATURE", "MAX_RETRIES"} ==> r.value == config
  {
    match KeyValue(line)
    case None => Err(NoSeparator(line))
    case Some((key, value)) =>
      if key == "HF_TOKEN" then Ok(config.(token := Some(value)))
      else if key == "MODEL" then Ok(config.(model := value))
      else if key == "TEMPERATURE" then
        (match parseReal(value)
         case None => Err(NotAFloat(value))
         case Some(t) => Ok(config.(temperature := t)))
      else if key == "MAX_RETRIES" then
        (match ParseInt(value)
         case None => Err(NotAnInt(value))
         case Some(n) => Ok(config.(maxRetries := n)))
      else Ok(config)
  }

  /** The lines applied in order; the first failing line ends the loop with its error. */
  function ApplyLines(config: Config, lines: seq<string>, parseReal: string -> Option<real>): Result<Config, ConfigError>
    decreases |lines|
  {
    if lines == [] then Ok(config)
    else match ApplyLine(config, lines[0], parseReal)
      case Err(e) => Err(e)
      case Ok(next) => ApplyLines(next, lines[1..], parseReal)
  }

  /** `load_config`: a missing file, a bad line, or no token is an error; otherwise the configuration read. */
  function LoadConfigOf(file: Option<seq<string>>, parseReal: string -> Option<real>): (r: Result<Config, ConfigError>)
    ensures file.None? ==> r == Err(ConfigFileMissing)
    ensures r.Ok? ==> file.Some? && ApplyLines(Defaults, file.value, parseReal) == r && r.value.token.Some?
  {
    match file
    case None => Err(ConfigFileMissing)
    case Some(lines) =>
      match ApplyLines(Defaults, lines, parseReal)
      case Err(e) => Err(e)
      case Ok(config) => if config.token.None? then Err(TokenMissing) else Ok(config)
  }

  /** What one accepted line does to each field: only the field its key names changes. */
  lemma ApplyLineFields(config: Config, line: string, parseReal: string -> Option<real>)
    requires ApplyLine(config, line, parseReal).Ok?
    ensures var c := ApplyLine(config, line, parseReal).value;
      var (key, value) := KeyValue(line).value;
      && c.token == (if key == "HF_TOKEN" then Some(value) else config.token)
      && c.model == (if key == "MODEL" then value else config.model)
      && (if key == "TEMPERATURE" then Some(c.temperature) == parseReal(value) else c.temperature == config.temperature)
      && (if key == "MAX_RETRIES" then Some(c.maxRetries) == ParseInt(value) else c.maxRetries == config.maxRetries)
  {
  }

  /** The value of the last line whose key is `key`, if any. */
  function LastValue(lines: seq<string>, key: string): Option<string>
    decreases |lines|
  {
    if lines == [] then None
    else
      var later := LastValue(lines[1..], key);
      if later.Some? then later
      else if KeyValue(lines[0]).Some? && KeyValue(lines[0]).value.0 == key then Some(KeyValue(lines[0]).value.1)
      else None
  }

  /**
   * The token and the model come from the last line with their key, the
   * defaults staying when there is none.
   */
  lemma {:induction false} LastTextWins(config: Config, lines: seq<string>, parseReal: string -> Option<real>)
    requires ApplyLines(config, lines, parseReal).Ok?
    ensures var c := ApplyLines(config, lines, parseReal).value;
      && c.token == (if LastValue(lines, "HF_TOKEN").Some? then LastValue(lines, "HF_TOKEN") else config.token)
      && c.model == (if LastValue(lines, "MODEL").Some? then LastValue(lines, "MODEL").value else config.model)
    decreases |lines|
  {
    if lines != [] {
      ApplyLineFields(config, lines[0], parseReal);
      var next := ApplyLine(config, lines[0], parseReal).value;
      LastTextWins(next, lines[1..], parseReal);
    }
  }

  /**
   * The temperature and the retry count are the last line's value with their
   * key, parsed, the defaults staying when there is none.
   */
  lemma {:induction false} LastNumberWins(config: Config, lines: seq<string>, parseReal: string -> Option<real>)
    requires ApplyLines(config, lines, parseReal).Ok?
    ensures var c := ApplyLines(config, lines, parseReal).value;
      && (LastValue(lines, "TEMPERATURE").Some? ==> Some(c.temperature) == parseReal(LastValue(lines, "TEMPERATURE").value))
      && (LastValue(lines, "TEMPERATURE").None? ==> c.temperature == config.temperature)
      && (LastValue(lines, "MAX_RETRIES").Some? ==> Some(c.maxRetries) == ParseInt(LastValue(lines, "MAX_RETRIES").value))
      && (LastValue(lines, "MAX_RETRIES").None? ==> c.maxRetries == config.maxRetries)
    decreases |lines|
  {
    if lines != [] {
      ApplyLineFields(config, lines[0], parseReal);
      var next := ApplyLine(config, lines[0], parseReal).value;
      LastNumberWins(next, lines[1..], parseReal);
    }
  }

  /** A line of a file read in full holds a '=' once stripped. */
  lemma {:induction false} LineNeedsSeparator(config: Config, lines: seq<string>, parseReal: string -> Option<real>, i: nat)
    requires ApplyLines(config, lines, parseReal).Ok? && i < |lines|
    ensures '=' in Strip(lines[i])
    decreases i
  {
    var first := ApplyLine(config, lines[0], parseReal);
    if i > 0 {
      LineNeedsSeparator(first.value, lines[1..], parseReal, i - 1);
      assert lines[1..][i - 1] == lines[i];
    }
  }

  /** The file is read in full only when every stripped line holds a '='. */
  lemma EveryLineNeedsSeparator(config: Config, lines: seq<string>, parseReal: string -> Option<real>)
    ensures ApplyLines(config, lines, parseReal).Ok? ==> forall i :: 0 <= i < |lines| ==> '=' in Strip(lines[i])
  {
    if ApplyLines(config, lines, parseReal).Ok? {
      forall i | 0 <= i < |lines|
        ensures '=' in Strip(lines[i])
      {
        LineNeedsSeparator(config, lines, parseReal, i);
      }
    }
  }

  /** A blank line anywhere in the file stops the loading. */
  lemma BlankLineFails(before: seq<string>, after: seq<string>, parseReal: string -> Option<real>)
    ensures LoadConfigOf(Some(before + ["\n"] + after), parseReal).Err?
  {
    var lines := before + ["\n"] + after;
    assert lines[|before|] == "\n";
    assert Strip("\n") == "";
    EveryLineNeedsSeparator(Defaults, lines, parseReal);
  }

  /** Applying the lines from `i` on is applying line `i`, then the rest from the resulting configuration. */
  lemma ApplyLinesStep(config: Config, lines: seq<string>, i: nat, parseReal: string -> Option<real>)
    requires i < |lines|
    ensures ApplyLines(config, lines[i..], parseReal)
      == match ApplyLine(config, lines[i], parseReal)
         case Err(e) => Err(e)
         case Ok(next) => ApplyLines(next, lines[i + 1..], parseReal)
  {
    assert lines[i..][1..] == lines[i + 1..];
  }

  /** `load_config`: the lines of the file applied one by one to the defaults. */
  method LoadConfig(file: Option<seq<string>>, parseReal: string -> Option<real>) returns (r: Result<Config, ConfigError>)
    ensures r == LoadConfigOf(file, parseReal)
  {
    if file.None? {
      return Err(ConfigFileMissing);
    }
    var lines := file.value;
    var config := Defaults;
    for i := 0 to |lines|
      invariant ApplyLines(Defaults, lines, parseReal) == ApplyLines(config, lines[i..], parseReal)
    {
      ApplyLinesStep(config, lines, i, parseReal);
      match KeyValue(lines[i])
      case None =>
        return Err(NoSeparator(lines[i]));
      case Some((key, value)) =>
        if key == "HF_TOKEN" {
          config := config.(token := Some(value));
        } else if key == "MODEL" {
          config := config.(model := value);
        } else if key == "TEMPERATURE" {
          var t := parseReal(value);
          if t.None? {
            return Err(NotAFloat(value));
          }
          config := config.(temperature := t.value);
        } else if key == "MAX_RETRIES" {
          var n := ParseInt(value);
          if n.None? {
            return Err(NotAnInt(value));
          }
          config := config.(maxRetries := n.value);
        }
    }
    assert lines[|lines|..] == [];
    if config.token.None? {
      return Err(TokenMissing);
    }
    return Ok(config);
  }

  // ---------------------------------------------------------------- the API call

  datatype Suggestion = Suggestion(point: string, augmentation: string)

  /** The decoded response: suggestions by category. */
  type Suggestions = map<string, seq<Suggestion>>

  /** What one `text_generation` call does: return text, or raise with a message. */
  datatype Attempt = Generated(text: string) | Raised(message: string)

  /** How `call_hf_api` ends. */
  datatype CallOutcome =
    | Returned(suggestions: Suggestions)
    | ModelNotFound(model: string)        // IdeationError, raised at once
    | MaxRetriesExceeded(lastError: string) // IdeationError, after the last failure
    | NoAttempt                           // the loop never ran: the function returns None

  /** The error text of attempt `k`, or its decoded result: a decoding failure is an error like any other. */
  function AttemptResult(attempt: Attempt, decode: string -> Result<Suggestions, string>): Result<Suggestions, string> {
    match attempt
    case Generated(text) => decode(text)
    case Raised(message) => Err(message)
  }

  /** The calls from attempt `k` on, with `retries` left. */
  function CallFrom(retries: int, k: nat, model: string, attempts: nat -> Attempt,
                    decode: string -> Result<Suggestions, string>): (r: CallOutcome)
    ensures r.NoAttempt? <==> retries <= 0
    ensures r.ModelNotFound? ==> r.model == model
    decreases retries
  {
    if retries <= 0 then NoAttempt
    else match AttemptResult(attempts(k), decode)
      case Ok(suggestions) => Returned(suggestions)
      case Err(e) =>
        if Contains(e, "404") then ModelNotFound(model)
        else if retries - 1 == 0 then MaxRetriesExceeded(e)
        else CallFrom(retries - 1, k + 1, model, attempts, decode)
  }

  /** How many calls are made from attempt `k` on, with `retries` left. */
  function AttemptsUsed(retries: int, k: nat, attempts: nat -> Attempt, decode: string -> Result<Suggestions, string>): (n: nat)
    ensures n <= (if retries <= 0 then 0 else retries)
    ensures retries > 0 ==> n >= 1
    decreases retries
  {
    if retries <= 0 then 0
    else match AttemptResult(attempts(k), decode)
      case Ok(_) => 1
      case Err(e) =>
        if Contains(e, "404") || retries - 1 == 0 then 1
        else 1 + AttemptsUsed(retries - 1, k + 1, attempts, decode)
  }

  /**
   * Only the attempts actually made decide the outcome: two APIs that agree
   * on the first `AttemptsUsed` calls give the same result after the same
   * number of calls.
   */
  lemma {:induction false} OnlyMadeAttemptsMatter(retries: int, k: nat, model: string, a: nat -> Attempt, b: nat -> Attempt,
                                                  decode: string -> Result<Suggestions, string>)
    requires forall j :: k <= j < k + AttemptsUsed(retries, k, a, decode) ==> a(j) == b(j)
    ensures CallFrom(retries, k, model, a, decode) == CallFrom(retries, k, model, b, decode)
    ensures AttemptsUsed(retries, k, a, decode) == AttemptsUsed(retries, k, b, decode)
    decreases retries
  {
    if retries > 0 {
      assert a(k) == b(k);
      if AttemptResult(a(k), decode).Err? && !Contains(AttemptResult(a(k), decode).error, "404") && retries - 1 != 0 {
        OnlyMadeAttemptsMatter(retries - 1, k + 1, model, a, b, decode);
      }
    }
  }

  /** An error mentioning "404" ends the call at once. */
  lemma NotFoundRaisesAtOnce(retries: int, k: nat, model: string, attempts: nat -> Attempt,
                             decode: string -> Result<Suggestions, string>)
    requires retries > 0 && attempts(k).Raised? && Contains(attempts(k).message, "404")
    ensures CallFrom(retries, k, model, attempts, decode) == ModelNotFound(model)
    ensures AttemptsUsed(retries, k, attempts, decode) == 1
  {
  }

  /** A response that does not decode is retried like any other failure. */
  lemma DecodeFailureIsRetried(retries: int, k: nat, model: string, attempts: nat -> Attempt,
                               decode: string -> Result<Suggestions, string>)
    requires retries > 1 && attempts(k).Generated? && decode(attempts(k).text).Err?
    requires !Contains(decode(attempts(k).text).error, "404")
    ensures CallFrom(retries, k, model, attempts, decode) == CallFrom(retries - 1, k + 1, model, attempts, decode)
  {
  }

  /** When every attempt fails without a 404, all `retries` calls are made and the last error is raised. */
  lemma {:induction false} PersistentFailureExhaustsRetries(retries: int, k: nat, model: string, attempts: nat -> Attempt,
                                                            decode: string -> Result<Suggestions, string>)
    requires retries > 0
    requires forall j :: k <= j < k + retries ==>
               AttemptResult(attempts(j), decode).Err? && !Contains(AttemptResult(attempts(j), decode).error, "404")
    ensures CallFrom(retries, k, model, attempts, decode) ==
            MaxRetriesExceeded(AttemptResult(attempts(k + retries - 1), decode).error)
    ensures AttemptsUsed(retries, k, attempts, decode) == retries
    decreases retries
  {
    if retries > 1 {
      PersistentFailureExhaustsRetries(retries - 1, k + 1, model, attempts, decode);
    }
  }

  /** `call_hf_api`: up to `max_retries` attempts, decrementing the retries left after each failure. */
  method CallHfApi(config: Config, attempts: nat -> Attempt, decode: string -> Result<Suggestions, string>)
    returns (outcome: CallOutcome, used: nat)
    ensures outcome == CallFrom(config.maxRetries, 0, config.model, attempts, decode)
    ensures used == AttemptsUsed(config.maxRetries, 0, attempts, decode)
  {
    var retries := config.maxRetries;
    used := 0;
    while retries > 0
      invariant used as int + retries == config.maxRetries
      invariant CallFrom(config.maxRetries, 0, config.model, attempts, decode) ==
                CallFrom(retries, used, config.model, attempts, decode)
      invariant AttemptsUsed(config.maxRetries, 0, attempts, decode) ==
                used + AttemptsUsed(retries, used, attempts, decode)
      decreases retries
    {
      var response := attempts(used);
      used := used + 1;
      var e: string;
      match response {
        case Generated(text) =>
          var decoded := decode(text);
          if decoded.Ok? {
            return Returned(decoded.value), used;
          }
          e := decoded.error;
        case Raised(message) =>
          e := message;
      }
      if Contains(e, "404") {
        return ModelNotFound(config.model), used;
      }
      retries := retries - 1;
      if retries == 0 {
        return MaxRetriesExceeded(e), used;
      }
    }
    return NoAttempt, used;
  }

  /** The message of the error `generate_suggestions` lets through, or the suggestions (`None` without an attempt). */
  function GenerateSuggestions(config: Config, attempts: nat -> Attempt, decode: string -> Result<Suggestions, string>)
    : (r: Result<Option<Suggestions>, string>)
    ensures r.Err? <==> CallFrom(config.maxRetries, 0, config.model, attempts, decode).ModelNotFound?
                        || CallFrom(config.maxRetries, 0, config.model, attempts, decode).MaxRetriesExceeded?
    ensures r == Ok(None) <==> config.maxRetries <= 0
  {
    match CallFrom(config.maxRetries, 0, config.model, attempts, decode)
    case Returned(suggestions) => Ok(Some(suggestions))
    case NoAttempt => Ok(None)
    case ModelNotFound(model) =>
      Err("Model " + model + " not found. Please check model availability or update ~/.ideation_config with a valid model.")
    case MaxRetriesExceeded(e) => Err("Max retries exceeded: " + e)
  }
}
