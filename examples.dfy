/** Concrete requests and the behaviour the model gives them. */
module Examples {
  import opened Values
  import opened Coercion
  import opened Params
  import opened Pipeline
  import opened Handler

  /** `resize` given ["100", "200"] is coerced to [100, 200]. */
  lemma ResizeStringsBecomeNumbers()
    ensures EnforceTypes("resize", Arr([Str("100"), Str("200")])) == Ok(Arr([Num(100), Num(200)]))
  {
    assert DigitsValue("100") == 100 by {
      assert "100"[..2] == "10" && "10"[..1] == "1";
    }
    assert DigitsValue("200") == 200 by {
      assert "200"[..2] == "20" && "20"[..1] == "2";
    }
    assert StringToNumber("100") == Some(100);
    assert StringToNumber("200") == Some(200);
    var es := [Str("100"), Str("200")];
    assert ToNumber(es[0]).Some? && ToNumber(es[1]).Some?;
    var r := CoerceAll(es);
    assert NumberOrObject(es[0]) == Ok(r.value[0]) && NumberOrObject(es[1]) == Ok(r.value[1]);
    assert r.value == [Num(100), Num(200)];
  }

  /** `resize` given [100, "bad"] fails on its second element. */
  lemma ResizeWithBadElementFails()
    ensures EnforceTypes("resize", Arr([Num(100), Str("bad")])) == Err(NotANumber(Str("bad")))
    ensures Message(NotANumber(Str("bad"))) == "bad is not a number"
  {
    var es := [Num(100), Str("bad")];
    assert es[1..] == [Str("bad")];
    assert !IsDigit("bad"[0]);
  }

  /** `blur=abc` throws "abc is not a number". */
  lemma BlurRejectsNonNumeric()
    ensures EnforceTypes("blur", Str("abc")).Err?
    ensures Message(EnforceTypes("blur", Str("abc")).error) == "abc is not a number"
  {
    assert !IsDigit("abc"[0]);
  }

  /** `blur[]=5` yields the array ["5"]: Number(["5"]) is 5, so numberOrObject
      lets the array through as it is, and blur then receives the string "5". */
  lemma BlurArrayPassesUncoerced()
    ensures EnforceTypes("blur", Arr([Str("5")])) == Ok(Arr([Str("5")]))
  {
    assert Join([Str("5")]) == JoinElement(Str("5")) == "5";
    assert DigitsValue("5") == 5;
  }

  /** `rotate` given two values (`rotate=90&rotate=180`) always fails:
      the array's string form "90,180" is not a number. */
  lemma RotateTwoValuesFails(a: string, b: string)
    ensures EnforceTypes("rotate", Arr([Str(a), Str(b)])).Err?
  {
    ArrayOfSeveralIsNaN([Str(a), Str(b)]);
  }

  /** With defaults { format: 'jpeg' } a request without `format` is
      answered in jpeg, and one with `format=webp` in webp. */
  lemma DefaultsFormat()
    ensures Split(ResolveParams([], [Field("format", Str("jpeg"))])).format == Str("jpeg")
    ensures Split(ResolveParams([Field("format", Str("webp"))], [Field("format", Str("jpeg"))])).format == Str("webp")
  {
    DeclaredFormat([], [Field("format", Str("jpeg"))]);
    DeclaredFormat([Field("format", Str("webp"))], [Field("format", Str("jpeg"))]);
  }

  /** A parameter source rejecting with Error("boom") yields a JSON body
      whose message is "boom" and which carries the stack. */
  lemma BoomErrorBody(stack: Value)
    ensures Lookup(ErrorBody(ErrorObject([], Str("boom"), stack)), "message") == Str("boom")
    ensures Lookup(ErrorBody(ErrorObject([], Str("boom"), stack)), "stack") == stack
  {
  }

  /** An error without a message is reported with the message 'error'. */
  lemma EmptyMessageBecomesError(own: seq<Field>, stack: Value)
    ensures Lookup(ErrorBody(ErrorObject(own, Str(""), stack)), "message") == Str("error")
  {
  }
}
