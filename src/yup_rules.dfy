/**
 * The part of `yup` string schemas the two auth forms under `app/` use, as
 * `yupResolver` reports it: the field shows the message of the first rule
 * that fails. yup runs a `oneOf` whitelist before every other test, and stops
 * there when it fails; the remaining rules run in the order they were
 * declared. A rule list here is in that running order. `min` counts UTF-16
 * code units, as JavaScript's `length` does.
 */
module YupRules {
  import opened Wrappers
  import opened Text

  /** One chained rule of a `yup.string()` schema, with its message. */
  datatype Rule =
    | Required(message: string)
    | Min(length: nat, message: string)
    | WordCharacters(message: string)       // `.matches(/^[a-zA-Z0-9_]+$/)`
    | EmailFormat(message: string)          // `.email()`; its verdict comes from the library
    | EqualsPassword(message: string)       // `.oneOf([yup.ref('password')])`

  /** What a rule can see besides the field's own value. */
  datatype Context = Context(password: string, emailAccepted: bool)

  predicate IsWordCharacter(c: char)
  {
    ('a' <= c <= 'z') || ('A' <= c <= 'Z') || ('0' <= c <= '9') || c == '_'
  }

  predicate Holds(rule: Rule, value: string, context: Context)
  {
    match rule
    case Required(_) => value != ""
    case Min(n, _) => Utf16Length(value) >= n
    case WordCharacters(_) => value != [] && forall k | 0 <= k < |value| :: IsWordCharacter(value[k])
    case EmailFormat(_) => context.emailAccepted
    case EqualsPassword(_) => value == context.password
  }

  /** The message shown under a field: that of the first failing rule, if any. */
  function FirstFailure(rules: seq<Rule>, value: string, context: Context): (r: Option<string>)
    ensures r.None? <==> forall k | 0 <= k < |rules| :: Holds(rules[k], value, context)
  {
    if rules == [] then None
    else if !Holds(rules[0], value, context) then Some(rules[0].message)
    else FirstFailure(rules[1..], value, context)
  }

  /** A reported message is that of a failing rule every earlier rule of the field passed. */
  lemma {:induction false} FirstFailureIsFirst(rules: seq<Rule>, value: string, context: Context)
    requires FirstFailure(rules, value, context).Some?
    ensures exists k | 0 <= k < |rules| ::
      && !Holds(rules[k], value, context)
      && FirstFailure(rules, value, context).value == rules[k].message
      && forall m | 0 <= m < k :: Holds(rules[m], value, context)
  {
    if Holds(rules[0], value, context) {
      FirstFailureIsFirst(rules[1..], value, context);
      var k :| 0 <= k < |rules[1..]|
        && !Holds(rules[1..][k], value, context)
        && FirstFailure(rules[1..], value, context).value == rules[1..][k].message
        && forall m | 0 <= m < k :: Holds(rules[1..][m], value, context);
      assert !Holds(rules[k + 1], value, context);
    } else {
      assert !Holds(rules[0], value, context);
    }
  }

  /** A field with two rules: the first failing one, in order. */
  lemma FirstFailureOfTwo(a: Rule, b: Rule, value: string, context: Context)
    ensures FirstFailure([a, b], value, context)
      == if !Holds(a, value, context) then Some(a.message)
         else if !Holds(b, value, context) then Some(b.message)
         else None
  {
    assert [a, b][1..] == [b];
    assert [b][1..] == [];
  }

  /** A field with three rules: the first failing one, in order. */
  lemma FirstFailureOfThree(a: Rule, b: Rule, c: Rule, value: string, context: Context)
    ensures FirstFailure([a, b, c], value, context)
      == if !Holds(a, value, context) then Some(a.message)
         else if !Holds(b, value, context) then Some(b.message)
         else if !Holds(c, value, context) then Some(c.message)
         else None
  {
    assert [a, b, c][1..] == [b, c];
    FirstFailureOfTwo(b, c, value, context);
  }
}
