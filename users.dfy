/**
 * The user handlers as transitions of the users table: registration, login,
 * e-mail verification by a mailed token, and phone verification by a one-time
 * code with a ten-minute expiry. Hashing, bcrypt, token signing and the random
 * sources are parameters.
 */
module Users {
  import opened Wrappers
  import opened Text
  import opened Schema
  import opened Store
  import opened Http

  /** The JSON bodies the user handlers answer with. */
  datatype UserBody =
    /** The columns `returning` selects from the new row. */
    | Profile(id: int, fullName: string, email: string)
    | AccessToken(token: string)
    | Notice(message: string)

  /** A message handed to the mail transport. */
  datatype Mail = Mail(to: string, subject: string, text: string, html: string)

  /** The claims signed into an access token. */
  datatype Claims = Claims(id: int, email: string, fullName: string, role: Role, isEmailVerified: bool, isPhoneVerified: bool)

  function ClaimsOf(u: User): Claims
  {
    Claims(u.id, u.email, u.fullName, u.role, u.isEmailVerified, u.isPhoneVerified)
  }

  /** The first row with that e-mail address (the address is unique). */
  function UserByEmail(users: seq<User>, email: string): Option<User>
  {
    First(users, (u: User) => u.email == email)
  }

  function UserById(users: seq<User>, id: int): Option<User>
  {
    First(users, (u: User) => u.id == id)
  }

  /** An update that does not touch the id or e-mail columns keeps the table's keys and every reference to them. */
  lemma SameUserKeys(users: seq<User>, users': seq<User>, next: int, carts: seq<Cart>)
    requires |users'| == |users|
    requires forall i :: 0 <= i < |users| ==> users'[i].id == users[i].id && users'[i].email == users[i].email
    requires Serial(users, (u: User) => u.id, next) && UniqueEmails(users) && CartOwnersExist(carts, users)
    ensures Serial(users', (u: User) => u.id, next) && UniqueEmails(users') && CartOwnersExist(carts, users')
  {
    SerialSameKeys(users, users', (u: User) => u.id, next);
    forall i | 0 <= i < |carts| ensures HasUser(users', carts[i].userId) {
      var j :| 0 <= j < |users| && users[j].id == carts[i].userId;
      assert users'[j].id == carts[i].userId;
    }
  }

  // ---------------------------------------------------------------------------
  // Registration

  /** Inserting a user with the next id and an unused address keeps the table's keys and every reference to them. */
  lemma UserAppendKeeps(users: seq<User>, user: User, next: int, carts: seq<Cart>)
    requires Serial(users, (u: User) => u.id, next) && UniqueEmails(users) && CartOwnersExist(carts, users)
    requires user.id == next && UserByEmail(users, user.email).None?
    ensures var users' := users + [user];
      Serial(users', (u: User) => u.id, next + 1) && UniqueEmails(users') && CartOwnersExist(carts, users')
  {
    var users' := users + [user];
    SerialAppend(users, (u: User) => u.id, next, user);
    forall i | 0 <= i < |carts| ensures HasUser(users', carts[i].userId) {
      var j :| 0 <= j < |users| && users[j].id == carts[i].userId;
      assert users'[j].id == carts[i].userId;
    }
  }

  /** The insert of a new row keyed by the next id. */
  method InsertUser(db: Db, user: User)
    requires db.Valid() && user.id == db.nextUserId && UserByEmail(db.users, user.email).None?
    modifies db`users, db`nextUserId
    ensures db.Valid()
    ensures db.users == old(db.users) + [user] && db.nextUserId == old(db.nextUserId) + 1
  {
    UserAppendKeeps(db.users, user, db.nextUserId, db.carts);
    db.users, db.nextUserId := db.users + [user], db.nextUserId + 1;
  }

  /** An insert that fails after drawing its id leaves a gap in the sequence. */
  method SkipUserId(db: Db)
    requires db.Valid()
    modifies db`nextUserId
    ensures db.Valid() && db.nextUserId == old(db.nextUserId) + 1
  {
    db.nextUserId := db.nextUserId + 1;
  }

  const VerifyEmailUrl: string := "http://localhost:3000/api/v1/users/verify-email/"
  const MailIntro: string := "please verify your account by clicking this link: "
  const LinkOpen: string := "<p>Please verify your account by clicking <a href=\""
  const LinkClose: string := "\">this link</a>."

  /** The verification mail for a token. */
  function VerificationMail(to: string, token: string): (m: Mail)
    ensures m.to == to && m.subject == "Verify Your MonoCart Account"
    ensures Contains(m.text, VerifyEmailUrl + token) && Contains(m.html, VerifyEmailUrl + token)
    ensures m.text[|m.text| - |token|..] == token
  {
    var url := VerifyEmailUrl + token;
    var text := MailIntro + url;
    var html := LinkOpen + url + LinkClose;
    ContainsMiddle(MailIntro, url, []);
    assert text == MailIntro + url + [];
    ContainsMiddle(LinkOpen, url, LinkClose);
    assert text[|text| - |token|..] == token;
    Mail(to, "Verify Your MonoCart Account", text, html)
  }

  /**
   * `registerUserHandler`. `salt` is what `genSalt(10)` drew and `tokenBytes` the 32 random
   * bytes behind the verification token; `bcrypt` and `sha256` are the hash functions.
   * The mail is handed to the transport; whether it is delivered does not change the reply.
   */
  method Register(db: Db, fullName: string, email: string, password: string,
                  bcrypt: (string, string) -> string, salt: string,
                  sha256: string -> string, tokenBytes: seq<byte>)
    returns (r: Outcome<UserBody>, mail: Option<Mail>)
    requires db.Valid() && |tokenBytes| == 32
    modifies db`users, db`nextUserId
    ensures db.Valid()
    ensures UserByEmail(old(db.users), email).Some? ==>
      r == Reply(409, Notice("User with this email already exists")) && mail == None
      && db.users == old(db.users) && db.nextUserId == old(db.nextUserId)
    ensures UserByEmail(old(db.users), email).None? && |email| > EmailLength ==>
      r == Next(ValueTooLong) && mail == None
      && db.users == old(db.users) && db.nextUserId == old(db.nextUserId) + 1
    ensures UserByEmail(old(db.users), email).None? && |email| <= EmailLength ==>
      var token := Hex(tokenBytes);
      var id := old(db.nextUserId);
      && db.users == old(db.users) + [NewUser(id, fullName, email, bcrypt(password, salt), Some(sha256(token)))]
      && db.nextUserId == id + 1
      && r == Reply(201, Profile(id, fullName, email))
      && mail == Some(VerificationMail(email, token))
  {
    if UserByEmail(db.users, email).Some? {
      return Reply(409, Notice("User with this email already exists")), None;
    }
    if |email| > EmailLength {
      // The row draws its id before the length check rejects the address.
      SkipUserId(db);
      return Next(ValueTooLong), None;
    }
    var token := Hex(tokenBytes);
    var user := NewUser(db.nextUserId, fullName, email, bcrypt(password, salt), Some(sha256(token)));
    InsertUser(db, user);
    r := Reply(201, Profile(user.id, fullName, email));
    mail := Some(VerificationMail(email, token));
  }

  // ---------------------------------------------------------------------------
  // Login

  const BadCredentials: string := "Invalid email or password"

  /**
   * `loginUserHandler` as written: the result of `compare` is computed and then not
   * consulted, so any password is accepted for an existing address.
   */
  function LoginAsWritten(users: seq<User>, email: string, password: string,
                          compare: (string, string) -> bool, sign: Claims -> string): (r: Outcome<UserBody>)
    ensures r.Reply?
    ensures r.status == 401 <==> UserByEmail(users, email).None?
    ensures r.status == 200 ==> r.body == AccessToken(sign(ClaimsOf(UserByEmail(users, email).value)))
  {
    match UserByEmail(users, email)
    case None => Reply(401, Notice(BadCredentials))
    case Some(user) =>
      var isPasswordCorrect := compare(password, user.password);
      Reply(200, AccessToken(sign(ClaimsOf(user))))
  }

  /** The login meant: a token only for the right password, the same 401 otherwise. */
  function Login(users: seq<User>, email: string, password: string,
                 compare: (string, string) -> bool, sign: Claims -> string): (r: Outcome<UserBody>)
    ensures r.Reply? && (r.status == 200 || r.status == 401)
  {
    match UserByEmail(users, email)
    case None => Reply(401, Notice(BadCredentials))
    case Some(user) =>
      if !compare(password, user.password) then Reply(401, Notice(BadCredentials))
      else Reply(200, AccessToken(sign(ClaimsOf(user))))
  }

  /** As written, a registered address gets a token whatever password comes with it. */
  lemma LoginAsWrittenIgnoresPassword(users: seq<User>, email: string, password: string, other: string,
                                      compare: (string, string) -> bool, sign: Claims -> string)
    requires UserByEmail(users, email).Some?
    ensures LoginAsWritten(users, email, password, compare, sign).status == 200
    ensures LoginAsWritten(users, email, password, compare, sign) == LoginAsWritten(users, email, other, compare, sign)
  {
  }

  /** The concrete case: a password bcrypt rejects still logs in. */
  lemma WrongPasswordLogsIn()
    ensures var users := [NewUser(1, "Ann", "ann@example.com", "$2a$10$hash", None)];
      var never := (p: string, h: string) => false;
      var sign := (c: Claims) => "jwt";
      && LoginAsWritten(users, "ann@example.com", "wrong", never, sign) == Reply(200, AccessToken("jwt"))
      && Login(users, "ann@example.com", "wrong", never, sign) == Reply(401, Notice(BadCredentials))
  {
    var users := [NewUser(1, "Ann", "ann@example.com", "$2a$10$hash", None)];
    assert UserByEmail(users, "ann@example.com") == Some(users[0]);
  }

  /** The corrected login issues a token exactly for a registered address and a password its hash accepts. */
  lemma LoginIssuesTokenIff(users: seq<User>, email: string, password: string,
                            compare: (string, string) -> bool, sign: Claims -> string)
    requires UniqueEmails(users)
    ensures Login(users, email, password, compare, sign).status == 200 <==>
      exists i :: 0 <= i < |users| && users[i].email == email && compare(password, users[i].password)
    ensures Login(users, email, password, compare, sign).status == 200 ==>
      exists i :: 0 <= i < |users| && users[i].email == email
        && Login(users, email, password, compare, sign).body == AccessToken(sign(ClaimsOf(users[i])))
  {
    match FirstIndex(users, (u: User) => u.email == email)
    case None =>
    case Some(k) =>
      assert forall i :: 0 <= i < |users| && users[i].email == email ==> i == k;
  }

  // ---------------------------------------------------------------------------
  // E-mail verification

  /** `UPDATE users SET is_email_verified = true, email_verification_token = NULL WHERE id = id`. */
  function MarkEmailVerified(users: seq<User>, id: int): seq<User>
  {
    seq(|users|, i requires 0 <= i < |users| =>
      if users[i].id == id then users[i].(isEmailVerified := true, emailVerificationToken := None) else users[i])
  }

  predicate Holds(u: User, hashed: string)
  {
    u.emailVerificationToken == Some(hashed)
  }

  /** `verifyEmailHandler` for the path parameter `token`. */
  method VerifyEmail(db: Db, token: string, sha256: string -> string) returns (r: Outcome<UserBody>)
    requires db.Valid()
    modifies db`users
    ensures db.Valid()
    ensures match First(old(db.users), (u: User) => Holds(u, sha256(token)))
      case None => r == Reply(400, Notice("Invalid verification token")) && db.users == old(db.users)
      case Some(user) =>
        r == Reply(200, Notice("Email verified successfully")) && db.users == MarkEmailVerified(old(db.users), user.id)
  {
    var hashed := sha256(token);
    var found := First(db.users, (u: User) => Holds(u, hashed));
    if found.None? {
      return Reply(400, Notice("Invalid verification token"));
    }
    SameUserKeys(db.users, MarkEmailVerified(db.users, found.value.id), db.nextUserId, db.carts);
    db.users := MarkEmailVerified(db.users, found.value.id);
    r := Reply(200, Notice("Email verified successfully"));
  }

  /**
   * A verification token works once: when one user holds its hash, verifying marks that
   * user verified, and afterwards no user holds the hash, so the same link gets 400.
   */
  lemma VerifyEmailOnce(users: seq<User>, hashed: string, k: nat)
    requires forall i, j :: 0 <= i < j < |users| ==> users[i].id != users[j].id
    requires k < |users| && Holds(users[k], hashed)
    requires forall i :: 0 <= i < |users| && Holds(users[i], hashed) ==> i == k
    ensures First(users, (u: User) => Holds(u, hashed)) == Some(users[k])
    ensures var after := MarkEmailVerified(users, users[k].id);
      && after[k].isEmailVerified
      && (forall i :: 0 <= i < |users| && i != k ==> after[i] == users[i])
      && First(after, (u: User) => Holds(u, hashed)).None?
  {
    var after := MarkEmailVerified(users, users[k].id);
    forall i | 0 <= i < |after| ensures !Holds(after[i], hashed) {
      if users[i].id != users[k].id {
        assert i != k;
      }
    }
  }

  /** The token mailed at registration verifies the new user, unless an earlier row holds the same hash. */
  lemma RegisteredTokenVerifies(users: seq<User>, user: User, token: string, sha256: string -> string)
    requires user.emailVerificationToken == Some(sha256(token))
    requires forall i :: 0 <= i < |users| ==> !Holds(users[i], sha256(token))
    ensures First(users + [user], (u: User) => Holds(u, sha256(token))) == Some(user)
  {
    var all := users + [user];
    assert all[|users|] == user;
  }

  // ---------------------------------------------------------------------------
  // Phone verification

  const OtpLifetime: int := 10 * 60 * 1000

  /** `Math.floor(100000 + Math.random() * 900000)` for a draw in [0, 1). */
  function OtpValue(random: real): (n: int)
    requires 0.0 <= random < 1.0
    ensures 100000 <= n <= 999999
  {
    (100000.0 + random * 900000.0).Floor
  }

  /** The code is written with exactly six digits. */
  lemma OtpHasSixDigits(random: real)
    requires 0.0 <= random < 1.0
    ensures |DecimalString(OtpValue(random))| == 6
    ensures DigitsValue(DecimalString(OtpValue(random))) == OtpValue(random)
  {
    assert Pow10(5) == 100000 && Pow10(6) == 1000000;
    DecimalLength(OtpValue(random), 5);
    DecimalRoundTrip(OtpValue(random));
  }

  /** `UPDATE users SET phone, phone_otp, phone_otp_expires WHERE id = id`. */
  function StoreOtp(users: seq<User>, id: int, phone: string, otp: string, expires: int): seq<User>
  {
    seq(|users|, i requires 0 <= i < |users| =>
      if users[i].id == id then users[i].(phone := Some(phone), phoneOtp := Some(otp), phoneOtpExpires := Some(expires))
      else users[i])
  }

  /** `UPDATE users SET is_phone_verified = true, phone_otp = NULL, phone_otp_expires = NULL WHERE id = id`. */
  function MarkPhoneVerified(users: seq<User>, id: int): seq<User>
  {
    seq(|users|, i requires 0 <= i < |users| =>
      if users[i].id == id then users[i].(isPhoneVerified := true, phoneOtp := None, phoneOtpExpires := None)
      else users[i])
  }

  /**
   * `sendPhoneOtpHandler` at time `now` with `random` as the draw of `Math.random()`.
   * An unknown user id updates no row and still gets the success reply.
   */
  method SendPhoneOtp(db: Db, userId: int, phone: string, random: real, now: int) returns (r: Outcome<UserBody>)
    requires db.Valid() && 0.0 <= random < 1.0
    modifies db`users
    ensures db.Valid()
    ensures |phone| > PhoneLength ==> r == Next(ValueTooLong) && db.users == old(db.users)
    ensures |phone| <= PhoneLength ==>
      && r == Reply(200, Notice("OTP sent successfully"))
      && db.users == StoreOtp(old(db.users), userId, phone, DecimalString(OtpValue(random)), now + OtpLifetime)
  {
    var otp := DecimalString(OtpValue(random));
    var expires := now + OtpLifetime;
    if |phone| > PhoneLength {
      return Next(ValueTooLong);
    }
    OtpHasSixDigits(random);
    assert |otp| <= OtpLength;
    SameUserKeys(db.users, StoreOtp(db.users, userId, phone, otp, expires), db.nextUserId, db.carts);
    db.users := StoreOtp(db.users, userId, phone, otp, expires);
    r := Reply(200, Notice("OTP sent successfully"));
  }

  /** The check of `verifyPhoneOtpHandler`: the code matches and its expiry is not before `now`. */
  predicate OtpAccepted(user: User, otp: string, now: int)
  {
    user.phoneOtp == Some(otp) && !(user.phoneOtpExpires.Some? && user.phoneOtpExpires.value < now)
  }

  /** `verifyPhoneOtpHandler` at time `now`. */
  method VerifyPhoneOtp(db: Db, userId: int, otp: string, now: int) returns (r: Outcome<UserBody>)
    requires db.Valid()
    modifies db`users
    ensures db.Valid()
    ensures match UserById(old(db.users), userId)
      case None => r == Reply(404, Notice("User not found")) && db.users == old(db.users)
      case Some(user) =>
        if !OtpAccepted(user, otp, now) then
          r == Reply(400, Notice("Invalid or expired OTP")) && db.users == old(db.users)
        else
          r == Reply(200, Notice("Phone number verified successfully")) && db.users == MarkPhoneVerified(old(db.users), userId)
  {
    var found := UserById(db.users, userId);
    if found.None? {
      return Reply(404, Notice("User not found"));
    }
    var user := found.value;
    var isOtpValid := user.phoneOtp == Some(otp);
    var isOtpExpired := user.phoneOtpExpires.Some? && user.phoneOtpExpires.value < now;
    if !isOtpValid || isOtpExpired {
      return Reply(400, Notice("Invalid or expired OTP"));
    }
    SameUserKeys(db.users, MarkPhoneVerified(db.users, userId), db.nextUserId, db.carts);
    db.users := MarkPhoneVerified(db.users, userId);
    r := Reply(200, Notice("Phone number verified successfully"));
  }

  /**
   * A code sent at `sent` is accepted at `now` exactly when it is the code sent and at most
   * ten minutes have passed (the comparison is strict, so the last millisecond still counts).
   */
  lemma OtpWindow(users: seq<User>, k: nat, phone: string, code: string, sent: int, otp: string, now: int)
    requires forall i, j :: 0 <= i < j < |users| ==> users[i].id != users[j].id
    requires k < |users|
    ensures var after := StoreOtp(users, users[k].id, phone, code, sent + OtpLifetime);
      && UserById(after, users[k].id) == Some(after[k])
      && (OtpAccepted(after[k], otp, now) <==> otp == code && now <= sent + OtpLifetime)
  {
    var after := StoreOtp(users, users[k].id, phone, code, sent + OtpLifetime);
    assert after[k].id == users[k].id;
    assert forall i :: 0 <= i < |after| && after[i].id == users[k].id ==> i == k;
  }

  /** A code works once: after a successful verification the user holds no code, so any code is refused. */
  lemma OtpOnce(users: seq<User>, k: nat, otp: string, now: int)
    requires forall i, j :: 0 <= i < j < |users| ==> users[i].id != users[j].id
    requires k < |users|
    ensures var after := MarkPhoneVerified(users, users[k].id);
      && UserById(after, users[k].id) == Some(after[k])
      && after[k].isPhoneVerified
      && !OtpAccepted(after[k], otp, now)
      && (forall i :: 0 <= i < |users| && i != k ==> after[i] == users[i])
  {
    var after := MarkPhoneVerified(users, users[k].id);
    assert forall i :: 0 <= i < |after| && after[i].id == users[k].id ==> i == k;
  }
}
