/** The part of zod's parsing model the request schemas use: raw JSON-like
    input, issues with a path and a message, and the three statuses a
    parse can end in. */
module Schema {
  import opened Wrappers
  import opened Text

  /** A raw input value as Express hands it over (a parsed JSON body, or a
      query string decoded into strings, arrays and objects). */
  datatype Value =
    | Null
    | Bool(b: bool)
    | Num(n: real)
    | Str(s: string)
    | Arr(items: seq<Value>)
    | Obj(fields: map<string, Value>)

  /** The key's value, or `None` when the key is absent (`undefined`). */
  function Field(m: map<string, Value>, key: string): (r: Option<Value>)
    ensures r.Some? <==> key in m
    ensures r.Some? ==> r.value == m[key]
  {
    if key in m then Some(m[key]) else None
  }

  /** zod's name for the type of a value, used in its default messages. */
  function TypeName(v: Value): string {
    match v
    case Null => "null"
    case Bool(_) => "boolean"
    case Num(_) => "number"
    case Str(_) => "string"
    case Arr(_) => "array"
    case Obj(_) => "object"
  }

  /** One failed check: where it failed and the message to report. */
  datatype Issue = Issue(path: seq<string>, message: string)

  /** How far a value got through a schema: accepted, accepted with issues
      (later checks and refinements still run), or rejected outright (a type
      error, after which nothing else about the value is checked). */
  datatype Parsed<+T> =
    | Valid(value: T)
    | Dirty(value: T, issues: seq<Issue>)
    | Aborted(issues: seq<Issue>)
  {
    function Issues(): seq<Issue> {
      if Valid? then [] else issues
    }

    /** A parse that produced no issue is valid, and one with issues is not. */
    predicate WellFormed() {
      Valid? || issues != []
    }
  }

  /** The value after a run of non-fatal checks that raised `issues`. */
  function Checked<T>(value: T, issues: seq<Issue>): (r: Parsed<T>)
    ensures r.WellFormed() && !r.Aborted?
    ensures r.value == value && r.Issues() == issues
  {
    if issues == [] then Valid(value) else Dirty(value, issues)
  }

  /** The issue for `message` at `path` when `failed`, else nothing. */
  function IssueIf(failed: bool, path: seq<string>, message: string): (r: seq<Issue>)
    ensures failed <==> r == [Issue(path, message)]
    ensures !failed <==> r == []
  {
    if failed then [Issue(path, message)] else []
  }

  /** A present field parsed by `chain`; an absent one is `undefined` (`.optional()`). */
  function Optional<T>(v: Option<Value>, chain: Value -> Parsed<T>): (r: Parsed<Option<T>>)
    ensures v.None? ==> r == Valid(None)
    ensures v.Some? ==> r.Issues() == chain(v.value).Issues()
    ensures v.Some? && !r.Aborted? ==> !chain(v.value).Aborted? && r.value == Some(chain(v.value).value)
    ensures v.Some? ==> (r.Aborted? <==> chain(v.value).Aborted?)
    ensures v.Some? ==> (r.Valid? <==> chain(v.value).Valid?)
  {
    match v
    case None => Valid(None)
    case Some(x) =>
      match chain(x)
      case Valid(y) => Valid(Some(y))
      case Dirty(y, issues) => Dirty(Some(y), issues)
      case Aborted(issues) => Aborted(issues)
  }

  /** A field that must be present: an absent one fails with the schema's
      `required_error` message at `path`. */
  function Required<T>(v: Option<Value>, path: seq<string>, message: string, chain: Value -> Parsed<T>): (r: Parsed<T>)
    ensures v.None? ==> r == Aborted([Issue(path, message)])
    ensures v.Some? ==> r == chain(v.value)
  {
    match v
    case None => Aborted([Issue(path, message)])
    case Some(x) => chain(x)
  }

  /** The messages of `issues`, in order. */
  function Messages(issues: seq<Issue>): (ms: seq<string>)
    ensures |ms| == |issues|
    ensures forall i :: 0 <= i < |issues| ==> ms[i] == issues[i].message
  {
    if issues == [] then [] else [issues[0].message] + Messages(issues[1..])
  }

  /** The text of a `ZodError` as the validation middleware reports it:
      every issue's message, in order, joined by ", ". */
  function ErrorText(issues: seq<Issue>): string {
    Join(Messages(issues), ", ")
  }

  /** A single issue is reported with exactly its message. */
  lemma ErrorTextSingle(i: Issue)
    ensures ErrorText([i]) == i.message
  {
  }

  /** Two or more issues are reported first message first. */
  lemma ErrorTextCons(i: Issue, rest: seq<Issue>)
    requires rest != []
    ensures ErrorText([i] + rest) == i.message + ", " + ErrorText(rest)
  {
    assert ([i] + rest)[1..] == rest;
  }
}
