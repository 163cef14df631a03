/**
 * The phone-based authentication flows of AuthController: purpose-aware OTP
 * request and verification, registration with a one-time ticket, two-step
 * login, token refresh and password reset.
 *
 * The user repository is a sequence of accounts searched in order; the
 * password-reset repository is a map from token to its record. Password
 * hashing, JWT generation, the authentication manager, the mail service and
 * the clock are foreign: their results are parameters.
 */
module Auth {

  import opened Wrappers
  import opened Text
  import opened Phones
  import opened Otp
  import opened Tokens

  const ResetTokenTtlSeconds: nat := 60 * 60

  const PhoneRequired := "phone is required"
  const PhoneAndOtpRequired := "phone and otp are required"
  const PurposeInvalid := "purpose must be one of: register, login, reset"
  const PhoneAlreadyRegistered := "Phone already registered"
  const PhoneNotRegistered := "Phone not registered"
  const InvalidOtp := "Invalid or expired OTP"
  const OtpSentMessage := "OTP sent"
  const OtpVerifiedMessage := "otp verified"
  const LoginOtpSentMessage := "OTP sent for 2FA. Verify to complete login."
  const PhoneNotVerified := "Phone not verified. Please verify your account first."
  const RegisteredMessage := "Registered successfully. You are now logged in."
  const InvalidRefreshToken := "Invalid refresh token"
  const RefreshedMessage := "refreshed"
  const ResetLinkSent := "If your phone exists, a reset link has been sent."
  const InvalidToken := "Invalid token"
  const TokenExpired := "Token expired"
  const PasswordUpdated := "Password updated"

  /** The fields of a stored user that the authentication flows read or write. */
  datatype Account = Account(
    id: string,
    phone: string,
    passwordHash: string,
    displayName: Option<string>,
    phoneVerified: bool,
    roles: set<string>,
    languages: seq<string>)

  /** A stored password-reset token: the user it resets and when it stops working. */
  datatype ResetToken = ResetToken(userId: string, expiresAt: nat)

  /** The HTTP outcome of a handler; `Thrown` is an exception that escapes it. */
  datatype Response =
    | OtpSent(message: string, devOtp: Option<string>)
    | TicketIssued(registrationTicket: string, expiresInSeconds: nat)
    | Message(message: string)
    | Registered(refreshToken: string, accessCookie: string, user: Account)
    | LoggedIn(refreshToken: string, accessCookie: string)
    | Refreshed(accessCookie: string)
    | Error(status: nat, error: string, reason: Option<string>)
    | Thrown(exception: string)

  /** `users.findByPhone`: the position of the first account with that phone. */
  function FindByPhone(users: seq<Account>, phone: string): Option<nat> {
    FirstIndex(users, (a: Account) => a.phone == phone)
  }

  /** The repository's ids are unique. */
  predicate UniqueIds(users: seq<Account>) {
    forall a, b :: 0 <= a < b < |users| ==> users[a].id != users[b].id
  }

  /** `users.findById`: the position of the first account with that id. */
  function FindById(users: seq<Account>, id: string): Option<nat> {
    FirstIndex(users, (a: Account) => a.id == id)
  }

  /** The request's phone: a missing field is "", then normalised. */
  function RequestPhone(phoneField: Option<string>): string {
    NormalizePhone(phoneField.GetOr(""))
  }

  /** The request's purpose: "register" when missing, then trimmed and lower-cased. */
  function ParsePurpose(purposeField: Option<string>): string {
    ToLower(Trim(purposeField.GetOr("register")))
  }

  /** The request's code: "" when missing, then trimmed. */
  function RequestCode(otpField: Option<string>): string {
    Trim(otpField.GetOr(""))
  }

  predicate IsValidPurpose(purpose: string) {
    purpose == "register" || purpose == "login" || purpose == "reset"
  }

  /** "register" needs an unknown phone; "login" and "reset" need a known one. */
  predicate PurposeAllowed(purpose: string, exists_: bool) {
    !(purpose == "register" && exists_) && !((purpose == "login" || purpose == "reset") && !exists_)
  }

  /** The error message `registerMinimal` gives for a ticket that was not OK. */
  function ConsumeMessage(r: ConsumeResult): string {
    match r
    case NotFound => "Registration ticket not found (server restarted or wrong ticket)"
    case PhoneMismatch => "Registration ticket does not match phone"
    case Expired => "Registration ticket expired"
    case Ok => "Phone verification required"
  }

  /** The minimal user `registerMinimal` saves. */
  function NewAccount(id: string, phone: string, passwordHash: string, displayName: Option<string>): Account {
    Account(id, phone, passwordHash, displayName, true, {"USER"}, ["English"])
  }

  /**
   * The checks `requestOtp` makes before touching the code store, in order:
   * the error message of the first that fails, if any.
   */
  function RequestOtpCheck(users: seq<Account>, phone: string, purpose: string): (err: Option<string>)
    ensures err.None? <==> phone != [] && IsValidPurpose(purpose) && PurposeAllowed(purpose, FindByPhone(users, phone).Some?)
    ensures phone == [] ==> err == Some(PhoneRequired)
    ensures phone != [] && !IsValidPurpose(purpose) ==> err == Some(PurposeInvalid)
    ensures phone != [] && purpose == "register" && FindByPhone(users, phone).Some? ==> err == Some(PhoneAlreadyRegistered)
    ensures phone != [] && (purpose == "login" || purpose == "reset") && FindByPhone(users, phone).None? ==>
      err == Some(PhoneNotRegistered)
  {
    if phone == [] then Some(PhoneRequired)
    else if !IsValidPurpose(purpose) then Some(PurposeInvalid)
    else
      var exists_ := FindByPhone(users, phone).Some?;
      if purpose == "register" && exists_ then Some(PhoneAlreadyRegistered)
      else if (purpose == "login" || purpose == "reset") && !exists_ then Some(PhoneNotRegistered)
      else None
  }

  /**
   * `requestOtp` on directory `users` and code store `store`: the response
   * and the code store afterwards. `random` is the value a fresh code is
   * made from; `dev` is whether a dev or local profile is active.
   */
  function RequestOtpStep(users: seq<Account>, store: map<string, OtpEntry>, phoneField: Option<string>,
                          purposeField: Option<string>, now: nat, random: nat, dev: bool): (r: (Response, map<string, OtpEntry>))
    requires random < 1000000
    ensures var err := RequestOtpCheck(users, RequestPhone(phoneField), ParsePurpose(purposeField));
      (r.0.OtpSent? <==> err.None?) && (err.Some? ==> r == (Error(400, err.value, None), store))
    ensures r.0.OtpSent? ==>
      var sent := SendStep(store, Key(RequestPhone(phoneField), ParsePurpose(purposeField)), now, random);
      r.1 == sent.1 && r.0.message == OtpSentMessage && r.0.devOtp == (if dev then Some(sent.0) else None)
  {
    var phone, purpose := RequestPhone(phoneField), ParsePurpose(purposeField);
    var err := RequestOtpCheck(users, phone, purpose);
    if err.Some? then (Error(400, err.value, None), store)
    else
      var sent := SendStep(store, Key(phone, purpose), now, random);
      (OtpSent(OtpSentMessage, if dev then Some(sent.0) else None), sent.1)
  }

  /**
   * `verifyOtp`: the response, the code store and the ticket store
   * afterwards; `ticket` is the fresh identifier a "register" success binds.
   */
  function VerifyOtpStep(store: map<string, OtpEntry>, tickets: map<string, RegistrationTicket>,
                         phoneField: Option<string>, purposeField: Option<string>, otpField: Option<string>,
                         now: nat, ticket: string): (r: (Response, map<string, OtpEntry>, map<string, RegistrationTicket>))
    ensures var phone, purpose, otp := RequestPhone(phoneField), ParsePurpose(purposeField), RequestCode(otpField);
      r.0.TicketIssued? <==>
        phone != [] && otp != [] && purpose == "register" && VerifyStep(store, Key(phone, purpose), otp, now).0
    ensures r.0.TicketIssued? ==>
      r.0 == TicketIssued(ticket, RegTicketTtlSeconds) && r.2 == IssueStep(tickets, ticket, RequestPhone(phoneField), now)
    ensures !r.0.TicketIssued? ==> r.2 == tickets
    ensures var phone, purpose, otp := RequestPhone(phoneField), ParsePurpose(purposeField), RequestCode(otpField);
      if phone == [] || otp == [] then r.0 == Error(400, PhoneAndOtpRequired, None) && r.1 == store
      else if !IsValidPurpose(purpose) then r.0 == Error(400, PurposeInvalid, None) && r.1 == store
      else
        var v := VerifyStep(store, Key(phone, purpose), otp, now);
        r.1 == v.1 && (!v.0 ==> r.0 == Error(400, InvalidOtp, None)) &&
        (v.0 && purpose != "register" ==> r.0 == Message(OtpVerifiedMessage))
  {
    var phone, purpose, otp := RequestPhone(phoneField), ParsePurpose(purposeField), RequestCode(otpField);
    if phone == [] || otp == [] then (Error(400, PhoneAndOtpRequired, None), store, tickets)
    else if !IsValidPurpose(purpose) then (Error(400, PurposeInvalid, None), store, tickets)
    else
      var v := VerifyStep(store, Key(phone, purpose), otp, now);
      if !v.0 then (Error(400, InvalidOtp, None), v.1, tickets)
      else if purpose == "register" then (TicketIssued(ticket, RegTicketTtlSeconds), v.1, IssueStep(tickets, ticket, phone, now))
      else (Message(OtpVerifiedMessage), v.1, tickets)
  }

  /**
   * `registerMinimal` as intended: the response, the directory and the
   * ticket store afterwards. `passwordHash` is the encoder's output, `newId`
   * the id the repository assigns, `access` and `refresh` the tokens
   * JwtService issues.
   */
  function RegisterStep(users: seq<Account>, tickets: map<string, RegistrationTicket>, rawPhone: string,
                        passwordHash: string, displayName: Option<string>, ticket: string, now: nat,
                        newId: string, access: string, refresh: string): (r: (Response, seq<Account>, map<string, RegistrationTicket>))
    ensures var c := ConsumeStep(tickets, ticket, NormalizePhone(rawPhone), now);
      r.2 == c.1 && (c.0 != Ok ==> r.0 == Error(400, ConsumeMessage(c.0), Some(c.0.Name())) && r.1 == users)
    ensures var phone := NormalizePhone(rawPhone);
      ConsumeStep(tickets, ticket, phone, now).0 == Ok && FindByPhone(users, phone).Some? ==>
        r.0 == Error(400, PhoneAlreadyRegistered, None)
    ensures var phone := NormalizePhone(rawPhone);
      r.0.Registered? <==> ConsumeStep(tickets, ticket, phone, now).0 == Ok && FindByPhone(users, phone).None?
    ensures r.0.Registered? ==>
      r.0.refreshToken == refresh && r.0.accessCookie == access &&
      |r.1| == |users| + 1 && r.1[..|users|] == users && r.0.user == r.1[|users|] &&
      r.0.user.id == newId && r.0.user.phone == NormalizePhone(rawPhone) && r.0.user.passwordHash == passwordHash &&
      r.0.user.displayName == displayName &&
      r.0.user.phoneVerified && r.0.user.roles == {"USER"} && r.0.user.languages == ["English"]
    ensures !r.0.Registered? ==> r.1 == users
  {
    var phone := NormalizePhone(rawPhone);
    var c := ConsumeStep(tickets, ticket, phone, now);
    if c.0 != Ok then (Error(400, ConsumeMessage(c.0), Some(c.0.Name())), users, c.1)
    else if FindByPhone(users, phone).Some? then (Error(400, PhoneAlreadyRegistered, None), users, c.1)
    else
      var u := NewAccount(newId, phone, passwordHash, displayName);
      (Registered(refresh, access, u), users + [u], c.1)
  }

  /**
   * `registerMinimal` as written: the user payload is built with `Map.of`,
   * which throws NullPointerException on a `null` display name, after the
   * user was saved and the ticket consumed.
   */
  function RegisterAsWritten(users: seq<Account>, tickets: map<string, RegistrationTicket>, rawPhone: string,
                             passwordHash: string, displayName: Option<string>, ticket: string, now: nat,
                             newId: string, access: string, refresh: string): (r: (Response, seq<Account>, map<string, RegistrationTicket>))
    ensures var intended := RegisterStep(users, tickets, rawPhone, passwordHash, displayName, ticket, now, newId, access, refresh);
      r.1 == intended.1 && r.2 == intended.2
      && r.0 == (if intended.0.Registered? && displayName.None? then Thrown("NullPointerException") else intended.0)
  {
    var phone := NormalizePhone(rawPhone);
    var c := ConsumeStep(tickets, ticket, phone, now);
    if c.0 != Ok then (Error(400, ConsumeMessage(c.0), Some(c.0.Name())), users, c.1)
    else if FindByPhone(users, phone).Some? then (Error(400, PhoneAlreadyRegistered, None), users, c.1)
    else
      var u := NewAccount(newId, phone, passwordHash, displayName);
      if displayName.None? then (Thrown("NullPointerException"), users + [u], c.1)
      else (Registered(refresh, access, u), users + [u], c.1)
  }

  /**
   * Registering without a display name stores the account and spends the
   * ticket, yet the caller gets an error instead of the tokens.
   */
  lemma UnnamedRegistrationFails(users: seq<Account>, tickets: map<string, RegistrationTicket>, rawPhone: string,
                                 passwordHash: string, ticket: string, issuedAt: nat, now: nat,
                                 newId: string, access: string, refresh: string)
    requires FindByPhone(users, NormalizePhone(rawPhone)).None? && now <= issuedAt + RegTicketTtlSeconds
    ensures var issued := IssueStep(tickets, ticket, NormalizePhone(rawPhone), issuedAt);
      var r := RegisterAsWritten(users, issued, rawPhone, passwordHash, None, ticket, now, newId, access, refresh);
      r.0 == Thrown("NullPointerException") && |r.1| == |users| + 1 && r.1[|users|].phone == NormalizePhone(rawPhone)
      && ticket !in r.2
  {
    var phone := NormalizePhone(rawPhone);
    IssueThenConsume(tickets, ticket, phone, phone, issuedAt, now);
  }

  /**
   * `login`: `authenticated` is whether the authentication manager accepted
   * the credentials (it throws otherwise).
   */
  function LoginStep(users: seq<Account>, store: map<string, OtpEntry>, rawPhone: string, authenticated: bool,
                     now: nat, random: nat, dev: bool): (r: (Response, map<string, OtpEntry>))
    requires random < 1000000
    ensures var phone := NormalizePhone(rawPhone); var i := FindByPhone(users, phone);
      r.0.OtpSent? <==> authenticated && i.Some? && users[i.value].phoneVerified
    ensures r.0.OtpSent? ==>
      var sent := SendStep(store, Key(NormalizePhone(rawPhone), "login"), now, random);
      r.1 == sent.1 && r.0.devOtp == (if dev then Some(sent.0) else None)
    ensures !r.0.OtpSent? ==> r.1 == store
    ensures var i := FindByPhone(users, NormalizePhone(rawPhone));
      authenticated && i.Some? && !users[i.value].phoneVerified ==> r.0 == Error(403, PhoneNotVerified, None)
  {
    var phone := NormalizePhone(rawPhone);
    if !authenticated then (Thrown("BadCredentialsException"), store)
    else
      var i := FindByPhone(users, phone);
      if i.None? then (Thrown("NoSuchElementException"), store)
      else if !users[i.value].phoneVerified then (Error(403, PhoneNotVerified, None), store)
      else
        var sent := SendStep(store, Key(phone, "login"), now, random);
        (OtpSent(LoginOtpSentMessage, if dev then Some(sent.0) else None), sent.1)
  }

  /** `loginVerifyOtp`: tokens are handed out only after the "login" code checks out. */
  function LoginVerifyStep(users: seq<Account>, store: map<string, OtpEntry>, rawPhone: string, otp: string,
                           now: nat, access: string, refresh: string): (r: (Response, map<string, OtpEntry>))
    ensures var v := VerifyStep(store, Key(NormalizePhone(rawPhone), "login"), otp, now);
      r.1 == v.1 && (r.0.LoggedIn? <==> v.0 && FindByPhone(users, NormalizePhone(rawPhone)).Some?)
    ensures r.0.LoggedIn? ==> r.0 == LoggedIn(refresh, access)
    ensures !VerifyStep(store, Key(NormalizePhone(rawPhone), "login"), otp, now).0 ==> r.0 == Error(400, InvalidOtp, None)
  {
    var phone := NormalizePhone(rawPhone);
    var v := VerifyStep(store, Key(phone, "login"), otp, now);
    if !v.0 then (Error(400, InvalidOtp, None), v.1)
    else if FindByPhone(users, phone).None? then (Thrown("NoSuchElementException"), v.1)
    else (LoggedIn(refresh, access), v.1)
  }

  /** `refresh`: the token is validated before its subject is read. */
  function Refresh(users: seq<Account>, jwt: TokenService, refreshToken: string, access: string): (r: Response)
    ensures r.Refreshed? <==>
      jwt.Validate(refreshToken) && jwt.Username(refreshToken).Some?
      && FindByPhone(users, jwt.Username(refreshToken).value).Some?
    ensures r.Refreshed? ==> r.accessCookie == access
    ensures !jwt.Validate(refreshToken) ==> r == Error(400, InvalidRefreshToken, None)
  {
    if !jwt.Validate(refreshToken) then Error(400, InvalidRefreshToken, None)
    else
      var subject := jwt.Username(refreshToken);
      if subject.None? || FindByPhone(users, subject.value).None? then Thrown("NoSuchElementException")
      else Refreshed(access)
  }

  /** `requestPasswordReset`: `token` is the fresh identifier, the response never reveals whether the phone exists. */
  function RequestResetStep(users: seq<Account>, resets: map<string, ResetToken>, rawPhone: string, token: string, now: nat): (r: (Response, map<string, ResetToken>))
    ensures r.0 == Message(ResetLinkSent)
    ensures var i := FindByPhone(users, NormalizePhone(rawPhone));
      r.1 == if i.Some? then resets[token := ResetToken(users[i.value].id, now + ResetTokenTtlSeconds)] else resets
  {
    var i := FindByPhone(users, NormalizePhone(rawPhone));
    if i.None? then (Message(ResetLinkSent), resets)
    else (Message(ResetLinkSent), resets[token := ResetToken(users[i.value].id, now + ResetTokenTtlSeconds)])
  }

  /** `resetPassword`: `passwordHash` is the encoder's output for the new password. */
  function ResetStep(users: seq<Account>, resets: map<string, ResetToken>, token: string, passwordHash: string, now: nat): (r: (Response, seq<Account>, map<string, ResetToken>))
    ensures token !in resets ==> r == (Error(400, InvalidToken, None), users, resets)
    ensures token in resets && resets[token].expiresAt < now ==> r == (Error(400, TokenExpired, None), users, resets)
    ensures r.0 == Message(PasswordUpdated) <==>
      token in resets && now <= resets[token].expiresAt && FindById(users, resets[token].userId).Some?
    ensures r.0 == Message(PasswordUpdated) ==>
      var i := FindById(users, resets[token].userId).value;
      r.1 == users[i := users[i].(passwordHash := passwordHash)] && r.2 == resets - {token}
    ensures r.0 != Message(PasswordUpdated) ==> r.1 == users && r.2 == resets
  {
    if token !in resets then (Error(400, InvalidToken, None), users, resets)
    else
      var t := resets[token];
      if t.expiresAt < now then (Error(400, TokenExpired, None), users, resets)
      else
        var i := FindById(users, t.userId);
        if i.None? then (Thrown("NoSuchElementException"), users, resets)
        else (Message(PasswordUpdated), users[i.value := users[i.value].(passwordHash := passwordHash)], resets - {token})
  }

  /** A string of digits is left alone by `trim`. */
  lemma TrimOfDigits(s: string)
    requires AllDigits(s)
    ensures Trim(s) == s
  {
    if s != [] {
      assert IsDigit(s[0]) && IsDigit(s[|s| - 1]);
    }
    TrimNoop(s);
  }

  lemma ParsePurposeDefault()
    ensures ParsePurpose(None) == "register"
  {
    var s := "register";
    TrimNoop(s);
    ToLowerNoop(s);
  }

  /** A "register" request for an unknown phone with no outstanding code stores a fresh entry. */
  lemma RequestStoresFreshCode(users: seq<Account>, store: map<string, OtpEntry>, phoneField: Option<string>,
                               now: nat, random: nat, dev: bool)
    requires random < 1000000
    requires RequestPhone(phoneField) != [] && FindByPhone(users, RequestPhone(phoneField)).None?
    requires Key(RequestPhone(phoneField), "register") !in store
    ensures var k := Key(RequestPhone(phoneField), "register");
      var stored := RequestOtpStep(users, store, phoneField, None, now, random, dev).1;
      k in stored && stored[k] == OtpEntry(FormatCode(random), now + OtpTtlSeconds, now, 0)
  {
    ParsePurposeDefault();
  }

  /**
   * The registration round trip: a code requested for an unknown phone with
   * no outstanding code, typed back within five minutes, yields a ticket.
   */
  lemma RequestThenVerify(users: seq<Account>, store: map<string, OtpEntry>, tickets: map<string, RegistrationTicket>,
                          phoneField: Option<string>, now: nat, random: nat, dev: bool, later: nat, ticket: string)
    requires random < 1000000 && now <= later <= now + OtpTtlSeconds
    requires RequestPhone(phoneField) != [] && FindByPhone(users, RequestPhone(phoneField)).None?
    requires Key(RequestPhone(phoneField), "register") !in store
    ensures var stored := RequestOtpStep(users, store, phoneField, None, now, random, dev).1;
      VerifyOtpStep(stored, tickets, phoneField, None, Some(FormatCode(random)), later, ticket).0
        == TicketIssued(ticket, RegTicketTtlSeconds)
  {
    var code := FormatCode(random);
    RequestStoresFreshCode(users, store, phoneField, now, random, dev);
    ParsePurposeDefault();
    TrimOfDigits(code);
    assert RequestCode(Some(code)) == code;
  }

  /**
   * A ticket issued for a phone registers that phone, if still unknown,
   * when it comes back within 24 hours with the same phone, and not otherwise.
   */
  lemma RegisterWithIssuedTicket(users: seq<Account>, tickets: map<string, RegistrationTicket>, verifiedPhone: string,
                                 rawPhone: string, ticket: string, issuedAt: nat, now: nat, passwordHash: string,
                                 displayName: Option<string>, newId: string, access: string, refresh: string)
    requires NormalizePhone(rawPhone) == verifiedPhone
    ensures var issued := IssueStep(tickets, ticket, verifiedPhone, issuedAt);
      var r := RegisterStep(users, issued, rawPhone, passwordHash, displayName, ticket, now, newId, access, refresh);
      r.0.Registered? <==> FindByPhone(users, verifiedPhone).None? && now <= issuedAt + RegTicketTtlSeconds
  {
    IssueThenConsume(tickets, ticket, verifiedPhone, verifiedPhone, issuedAt, now);
  }

  /** A reset token works once: the same token right after is unknown. */
  lemma ResetTokenSingleUse(users: seq<Account>, resets: map<string, ResetToken>, token: string, hash1: string, hash2: string, now: nat, later: nat)
    requires ResetStep(users, resets, token, hash1, now).0 == Message(PasswordUpdated)
    ensures var r := ResetStep(users, resets, token, hash1, now);
      ResetStep(r.1, r.2, token, hash2, later).0 == Error(400, InvalidToken, None)
  {
  }

  /** A reset requested for a known phone can be used within the hour and sets that user's password. */
  lemma ResetWithinTheHour(users: seq<Account>, resets: map<string, ResetToken>, rawPhone: string, token: string,
                           passwordHash: string, now: nat, later: nat)
    requires UniqueIds(users) && FindByPhone(users, NormalizePhone(rawPhone)).Some?
    requires now <= later <= now + ResetTokenTtlSeconds
    ensures var requested := RequestResetStep(users, resets, rawPhone, token, now);
      var r := ResetStep(users, requested.1, token, passwordHash, later);
      var i := FindByPhone(users, NormalizePhone(rawPhone)).value;
      r.0 == Message(PasswordUpdated) && r.1[i].passwordHash == passwordHash
  {
    var i := FindByPhone(users, NormalizePhone(rawPhone)).value;
    var requested := RequestResetStep(users, resets, rawPhone, token, now);
    var j := FindById(users, users[i].id);
    assert j.Some? && j.value == i;
  }

  class AuthController {
    const otp: OtpService
    const devProfile: bool
    var users: seq<Account>
    var resetTokens: map<string, ResetToken>

    constructor (otp: OtpService, devProfile: bool, users: seq<Account>)
      ensures this.otp == otp && this.devProfile == devProfile
      ensures this.users == users && resetTokens == map[]
    {
      this.otp := otp;
      this.devProfile := devProfile;
      this.users := users;
      resetTokens := map[];
    }

    method RequestOtp(phoneField: Option<string>, purposeField: Option<string>, now: nat, random: nat) returns (resp: Response)
      requires random < 1000000
      modifies otp`otpStore
      ensures (resp, otp.otpStore) == RequestOtpStep(users, old(otp.otpStore), phoneField, purposeField, now, random, devProfile)
    {
      var phone, purpose := RequestPhone(phoneField), ParsePurpose(purposeField);
      var err := RequestOtpCheck(users, phone, purpose);
      if err.Some? {
        return Error(400, err.value, None);
      }
      var code := otp.SendOtp(phone, purpose, now, random);
      resp := OtpSent(OtpSentMessage, if devProfile then Some(code) else None);
    }

    /** `ticket` stands for the fresh `UUID.randomUUID()` a "register" success binds. */
    method VerifyOtp(phoneField: Option<string>, purposeField: Option<string>, otpField: Option<string>, now: nat, ticket: string)
      returns (resp: Response)
      requires ticket !in otp.registrationTickets
      modifies otp`otpStore, otp`registrationTickets
      ensures (resp, otp.otpStore, otp.registrationTickets)
        == VerifyOtpStep(old(otp.otpStore), old(otp.registrationTickets), phoneField, purposeField, otpField, now, ticket)
    {
      var phone, purpose, code := RequestPhone(phoneField), ParsePurpose(purposeField), RequestCode(otpField);
      if phone == [] || code == [] {
        return Error(400, PhoneAndOtpRequired, None);
      }
      if !IsValidPurpose(purpose) {
        return Error(400, PurposeInvalid, None);
      }
      var ok := otp.VerifyOtp(phone, purpose, code, now);
      if !ok {
        return Error(400, InvalidOtp, None);
      }
      if purpose == "register" {
        NormalizeIdempotent(phoneField.GetOr(""));
        var id := otp.IssueRegistrationTicket(phone, now, ticket);
        return TicketIssued(id, RegTicketTtlSeconds);
      }
      return Message(OtpVerifiedMessage);
    }

    method RegisterMinimal(rawPhone: string, passwordHash: string, displayName: Option<string>, ticket: string, now: nat,
                           newId: string, access: string, refresh: string) returns (resp: Response)
      modifies this`users, otp`registrationTickets
      ensures (resp, users, otp.registrationTickets)
        == RegisterAsWritten(old(users), old(otp.registrationTickets), rawPhone, passwordHash, displayName, ticket, now, newId, access, refresh)
    {
      var phone := NormalizePhone(rawPhone);
      var r := otp.ConsumeRegistrationTicket(ticket, phone, now);
      NormalizeIdempotent(rawPhone);
      if r != Ok {
        return Error(400, ConsumeMessage(r), Some(r.Name()));
      }
      if FindByPhone(users, phone).Some? {
        return Error(400, PhoneAlreadyRegistered, None);
      }
      var u := NewAccount(newId, phone, passwordHash, displayName);
      users := users + [u];
      if displayName.None? {
        return Thrown("NullPointerException");
      }
      resp := Registered(refresh, access, u);
    }

    /** `authenticated` is the authentication manager's verdict on the phone and password. */
    method Login(rawPhone: string, authenticated: bool, now: nat, random: nat) returns (resp: Response)
      requires random < 1000000
      modifies otp`otpStore
      ensures (resp, otp.otpStore) == LoginStep(users, old(otp.otpStore), rawPhone, authenticated, now, random, devProfile)
    {
      var phone := NormalizePhone(rawPhone);
      if !authenticated {
        return Thrown("BadCredentialsException");
      }
      var i := FindByPhone(users, phone);
      if i.None? {
        return Thrown("NoSuchElementException");
      }
      if !users[i.value].phoneVerified {
        return Error(403, PhoneNotVerified, None);
      }
      var code := otp.SendOtp(phone, "login", now, random);
      resp := OtpSent(LoginOtpSentMessage, if devProfile then Some(code) else None);
    }

    method LoginVerifyOtp(rawPhone: string, code: string, now: nat, access: string, refresh: string) returns (resp: Response)
      modifies otp`otpStore
      ensures (resp, otp.otpStore) == LoginVerifyStep(users, old(otp.otpStore), rawPhone, code, now, access, refresh)
    {
      var phone := NormalizePhone(rawPhone);
      var ok := otp.VerifyOtp(phone, "login", code, now);
      if !ok {
        return Error(400, InvalidOtp, None);
      }
      if FindByPhone(users, phone).None? {
        return Thrown("NoSuchElementException");
      }
      resp := LoggedIn(refresh, access);
    }

    /** `token` stands for the fresh `UUID.randomUUID()`. */
    method RequestPasswordReset(rawPhone: string, token: string, now: nat) returns (resp: Response)
      modifies this`resetTokens
      ensures (resp, resetTokens) == RequestResetStep(users, old(resetTokens), rawPhone, token, now)
    {
      var phone := NormalizePhone(rawPhone);
      var i := FindByPhone(users, phone);
      if i.Some? {
        resetTokens := resetTokens[token := ResetToken(users[i.value].id, now + ResetTokenTtlSeconds)];
      }
      resp := Message(ResetLinkSent);
    }

    method ResetPassword(token: string, passwordHash: string, now: nat) returns (resp: Response)
      modifies this`users, this`resetTokens
      ensures (resp, users, resetTokens) == ResetStep(old(users), old(resetTokens), token, passwordHash, now)
    {
      if token !in resetTokens {
        return Error(400, InvalidToken, None);
      }
      var t := resetTokens[token];
      if t.expiresAt < now {
        return Error(400, TokenExpired, None);
      }
      var i := FindById(users, t.userId);
      if i.None? {
        return Thrown("NoSuchElementException");
      }
      users := users[i.value := users[i.value].(passwordHash := passwordHash)];
      resetTokens := resetTokens - {token};
      resp := Message(PasswordUpdated);
    }
  }
}
