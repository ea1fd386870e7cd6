/** The user routes' request schemas. */
module UserSchemas {
  import opened Wrappers
  import opened Json
  import opened Zod
  import opened Validate

  const FullNameField: Field := Field("fullName", ZString([MinLength(1)]))
  const EmailField: Field := Field("email", ZString([MinLength(1), EmailFormat]))
  const NewPasswordField: Field := Field("password", ZString([MinLength(1), MinLength(6)]))
  const PasswordField: Field := Field("password", ZString([MinLength(1)]))

  const RegisterUser: Schema := ZObject([Field("body", ZObject([FullNameField, EmailField, NewPasswordField]))])

  const LoginUser: Schema := ZObject([Field("body", ZObject([EmailField, PasswordField]))])

  const SendPhoneOtp: Schema := ZObject([Field("body", ZObject([Field("phone", ZString([MinLength(10)]))]))])

  const VerifyPhoneOtp: Schema := ZObject([Field("body", ZObject([Field("otp", ZString([ExactLength(6)]))]))])

  /** A string property of exactly `n` characters. */
  predicate StringOfLength(v: Option<Value>, n: nat) { IsString(v) && |TextOf(v)| == n }

  lemma EmailAccepts(v: Option<Value>, path: seq<string>, isEmail: string -> bool)
    ensures Issues(EmailField.schema, v, path, isEmail) == [] <==> EmailString(v, isEmail)
  {
    StringAccepts([MinLength(1), EmailFormat], v, path, isEmail);
    assert [MinLength(1), EmailFormat][0] == MinLength(1) && [MinLength(1), EmailFormat][1] == EmailFormat;
  }

  lemma NewPasswordAccepts(v: Option<Value>, path: seq<string>, isEmail: string -> bool)
    ensures Issues(NewPasswordField.schema, v, path, isEmail) == [] <==> LongString(v, 6)
  {
    StringAccepts([MinLength(1), MinLength(6)], v, path, isEmail);
    assert [MinLength(1), MinLength(6)][1] == MinLength(6);
  }

  /** Register: a non-empty full name, an e-mail address and a password of at least 6 characters. */
  lemma RegisterUserAccepts(body: Option<Value>, query: map<string, Value>, params: map<string, string>, isEmail: string -> bool)
    ensures Accepts(RegisterUser, Some(RequestValue(body, query, params)), isEmail) <==>
      && body.Some? && body.value.Obj?
      && LongString(Get(body.value, "fullName"), 1)
      && EmailString(Get(body.value, "email"), isEmail)
      && LongString(Get(body.value, "password"), 6)
  {
    var request := RequestValue(body, query, params);
    assert [] + ["body"] == ["body"];
    ObjectOfOne(Field("body", ZObject([FullNameField, EmailField, NewPasswordField])), Some(request), [], isEmail);
    ObjectOfThree(FullNameField, EmailField, NewPasswordField, body, ["body"], isEmail);
    if body.Some? && body.value.Obj? {
      var b := body.value;
      StringAccepts([MinLength(1)], Get(b, "fullName"), ["body"] + ["fullName"], isEmail);
      EmailAccepts(Get(b, "email"), ["body"] + ["email"], isEmail);
      NewPasswordAccepts(Get(b, "password"), ["body"] + ["password"], isEmail);
    }
  }

  /** Login: an e-mail address and a non-empty password. */
  lemma LoginUserAccepts(body: Option<Value>, query: map<string, Value>, params: map<string, string>, isEmail: string -> bool)
    ensures Accepts(LoginUser, Some(RequestValue(body, query, params)), isEmail) <==>
      && body.Some? && body.value.Obj?
      && EmailString(Get(body.value, "email"), isEmail)
      && LongString(Get(body.value, "password"), 1)
  {
    var request := RequestValue(body, query, params);
    assert [] + ["body"] == ["body"];
    ObjectOfOne(Field("body", ZObject([EmailField, PasswordField])), Some(request), [], isEmail);
    ObjectOfTwo(EmailField, PasswordField, body, ["body"], isEmail);
    if body.Some? && body.value.Obj? {
      var b := body.value;
      EmailAccepts(Get(b, "email"), ["body"] + ["email"], isEmail);
      StringAccepts([MinLength(1)], Get(b, "password"), ["body"] + ["password"], isEmail);
    }
  }

  /** Sending an OTP: a phone number of at least 10 characters. */
  lemma SendPhoneOtpAccepts(body: Option<Value>, query: map<string, Value>, params: map<string, string>, isEmail: string -> bool)
    ensures Accepts(SendPhoneOtp, Some(RequestValue(body, query, params)), isEmail) <==>
      body.Some? && body.value.Obj? && LongString(Get(body.value, "phone"), 10)
  {
    var request := RequestValue(body, query, params);
    assert [] + ["body"] == ["body"];
    ObjectOfOne(Field("body", ZObject([Field("phone", ZString([MinLength(10)]))])), Some(request), [], isEmail);
    ObjectOfOne(Field("phone", ZString([MinLength(10)])), body, ["body"], isEmail);
    if body.Some? && body.value.Obj? {
      StringAccepts([MinLength(10)], Get(body.value, "phone"), ["body"] + ["phone"], isEmail);
    }
  }

  /** Verifying an OTP: an `otp` string of exactly 6 characters. */
  lemma VerifyPhoneOtpAccepts(body: Option<Value>, query: map<string, Value>, params: map<string, string>, isEmail: string -> bool)
    ensures Accepts(VerifyPhoneOtp, Some(RequestValue(body, query, params)), isEmail) <==>
      body.Some? && body.value.Obj? && StringOfLength(Get(body.value, "otp"), 6)
  {
    var request := RequestValue(body, query, params);
    assert [] + ["body"] == ["body"];
    ObjectOfOne(Field("body", ZObject([Field("otp", ZString([ExactLength(6)]))])), Some(request), [], isEmail);
    ObjectOfOne(Field("otp", ZString([ExactLength(6)])), body, ["body"], isEmail);
    if body.Some? && body.value.Obj? {
      StringAccepts([ExactLength(6)], Get(body.value, "otp"), ["body"] + ["otp"], isEmail);
    }
  }

  /** A register body without a password is answered 400, and the issues name `body.password`. */
  lemma RegisterWithoutPassword(fields: map<string, Value>, query: map<string, Value>, params: map<string, string>, isEmail: string -> bool)
    requires "password" !in fields
    ensures var g := ValidateRequest(RegisterUser, Some(Obj(fields)), query, params, isEmail);
      && g.Halt? && g.status == 400 && g.body.message == "Validation failed"
      && Issue(["body", "password"], InvalidType) in g.body.errors
  {
    var request := RequestValue(Some(Obj(fields)), query, params);
    var password := Issue(["body"] + ["password"], InvalidType);
    var bodyFields := [FullNameField, EmailField, NewPasswordField];
    assert password in Issues(bodyFields[2].schema, Get(Obj(fields), bodyFields[2].key), ["body"] + [bodyFields[2].key], isEmail);
    FieldIssue(bodyFields, Obj(fields), ["body"], isEmail, 2, password);
    assert [] + ["body"] == ["body"];
    FieldIssue([Field("body", ZObject(bodyFields))], request, [], isEmail, 0, password);
    assert ["body"] + ["password"] == ["body", "password"];
  }
}
