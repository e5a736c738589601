/** The `validate` middleware that turns the validators' findings into a 400
    reply. */
module ValidateMiddleware {
  import opened Wrappers
  import opened Strings
  import opened Wire
  import opened Http

  const Separator := ", "

  /** `validate` given the messages of the failed checks, in check order. */
  function Validate(errors: seq<string>): (r: Step)
    ensures r.nextCalls == 1 <==> errors == []
    ensures r.nextCalls <= 1
    ensures r.response.None? <==> errors == []
    ensures errors != [] ==> r.response == Some(Failure(400, Join(errors, Separator)))
  {
    if errors == [] then Step(1, None) else Step(0, Some(Failure(400, Join(errors, Separator))))
  }

  /** A single failed check is reported by its own message. */
  lemma SingleErrorVerbatim(e: string)
    ensures Validate([e]).response == Some(Failure(400, e))
  {
  }

  /** The reported text lists the messages in order: one more message adds
      one separator and that message at the end. */
  lemma ErrorTextGrows(errors: seq<string>, e: string)
    requires errors != []
    ensures Join(errors + [e], Separator) == Join(errors, Separator) + Separator + e
  {
    JoinSnoc(errors, e, Separator);
  }

  /** When no message contains a comma, k messages are joined by exactly
      k - 1 separators. */
  lemma SeparatorCount(errors: seq<string>)
    requires errors != []
    requires forall i :: 0 <= i < |errors| ==> ',' !in errors[i]
    ensures CountChar(Join(errors, Separator), ',') == |errors| - 1
  {
    SeparatorHasOneComma();
    JoinCountChar(errors, Separator, ',');
  }

  lemma SeparatorHasOneComma()
    ensures CountChar(Separator, ',') == 1
  {
    assert Separator[1..] == " ";
    assert (" ")[1..] == "";
  }
}
