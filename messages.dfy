/**
 * How the seller console and the registration form turn a failed request into
 * the one line of text they show (admin.component.ts:141-148 and
 * register.component.ts:53-60 follow the same rule).
 */
module Messages {
  import opened Wrappers
  import opened Models
  import opened Text

  const Separator := ", "

  /** `Object.values(errors).flat()`: every message of every field, field by field, in order. */
  function Flatten(errs: seq<FieldErrors>): (flat: seq<string>)
    decreases |errs|
  {
    if errs == [] then [] else errs[0].messages + Flatten(errs[1..])
  }

  /** A message is flattened exactly when some field carries it. */
  lemma {:induction false} FlattenMembership(errs: seq<FieldErrors>, m: string)
    ensures m in Flatten(errs) <==> exists i :: 0 <= i < |errs| && m in errs[i].messages
    decreases |errs|
  {
    if errs != [] {
      FlattenMembership(errs[1..], m);
      assert forall i :: 1 <= i < |errs| ==> errs[1..][i - 1] == errs[i];
      if m in Flatten(errs[1..]) {
        var j :| 0 <= j < |errs[1..]| && m in errs[1..][j].messages;
        assert m in errs[j + 1].messages;
      }
    }
  }

  /**
   * The message shown for a failed request: the backend's `message` when it is a
   * non-empty string, else `fallback`; but when an `errors` object is present,
   * all of its messages joined with ", " replace it.
   */
  function ErrorMessage(body: ErrorBody, fallback: string): (shown: string)
  {
    var headline :=
      if body.message.Some? && body.message.value != "" then body.message.value else fallback;
    if body.errors.Some? then Join(Flatten(body.errors.value), Separator) else headline
  }

  /**
   * The precedence of the three sources of the message. When an `errors` object
   * is present, the backend `message` and the fallback are ignored whatever they
   * are, and an object with no messages at all gives "".
   */
  lemma ErrorPrecedence(body: ErrorBody, fallback: string, otherMessage: Option<string>, otherFallback: string)
    ensures body.errors.Some? ==>
      ErrorMessage(body.(message := otherMessage), otherFallback) == ErrorMessage(body, fallback)
    ensures body.errors.Some? ==> ErrorMessage(body, fallback) == Join(Flatten(body.errors.value), Separator)
    ensures body.errors.Some? && Flatten(body.errors.value) == [] ==> ErrorMessage(body, fallback) == ""
    ensures body.errors.Some? && |Flatten(body.errors.value)| == 1
      ==> ErrorMessage(body, fallback) == Flatten(body.errors.value)[0]
    ensures body.errors.None? && body.message.Some? && body.message.value != ""
      ==> ErrorMessage(body, fallback) == body.message.value
    ensures body.errors.None? && (body.message.None? || body.message.value == "")
      ==> ErrorMessage(body, fallback) == fallback
  {
  }

  /** A field present with no messages contributes nothing: `{name: []}` is shown as "". */
  lemma {:induction false} FieldsWithoutMessagesShowNothing(errs: seq<FieldErrors>, fallback: string)
    requires forall i :: 0 <= i < |errs| ==> errs[i].messages == []
    ensures Flatten(errs) == []
    ensures ErrorMessage(ErrorBody(None, Some(errs)), fallback) == ""
    decreases |errs|
  {
    if errs != [] {
      assert forall i :: 0 <= i < |errs[1..]| ==> errs[1..][i] == errs[i + 1];
      FieldsWithoutMessagesShowNothing(errs[1..], fallback);
    }
  }

  /** Each field-level message the backend sent can be read in the shown message. */
  lemma ErrorMessageShowsEveryFieldError(body: ErrorBody, fallback: string, i: nat, m: string)
    requires body.errors.Some? && i < |body.errors.value|
    requires m in body.errors.value[i].messages
    ensures Occurs(m, ErrorMessage(body, fallback))
  {
    var flat := Flatten(body.errors.value);
    FlattenMembership(body.errors.value, m);
    var j :| 0 <= j < |flat| && flat[j] == m;
    JoinContainsEveryPart(flat, Separator, j);
  }

  /** The worked case: two fields with one message each become one line. */
  lemma TwoFieldErrorsExample(fallback: string)
    ensures ErrorMessage(
      ErrorBody(None, Some([FieldErrors("name", ["required"]), FieldErrors("price", ["must be positive"])])),
      fallback) == "required, must be positive"
  {
    var errs := [FieldErrors("name", ["required"]), FieldErrors("price", ["must be positive"])];
    assert Flatten(errs[1..][1..]) == [];
    assert Flatten(errs) == ["required", "must be positive"];
    var flat := ["required", "must be positive"];
    assert Join(flat[1..], Separator) == "must be positive";
    assert Join(flat, Separator) == "required" + ", " + "must be positive";
  }
}
