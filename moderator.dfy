/**
 * The moderator schema: `password` and `email` are required and trimmed,
 * `email` must pass an email predicate, and `accessToken` defaults to the hex
 * text of 128 random bytes. A document remembers whether its password was
 * modified since it was last saved; the pre-save hook hashes the password
 * only then, so saving again does not hash the hash.
 *
 * The salt generator, the hash function and the email predicate are foreign
 * code and come in as parameters, as do the random bytes.
 */
module ModeratorSchema {
  import opened Wrappers
  import opened JsString
  import opened Hex
  import opened SchemaRules

  datatype Field = Password | Email

  /** The fields a new moderator is built from. */
  datatype RawModerator = RawModerator(
    password: Option<string>,
    email: Option<string>,
    accessToken: Option<string>)

  /** Random bytes behind a default access token. */
  const TokenBytes: nat := 128
  /** The cost factor the hook asks of the salt generator. */
  const SaltRounds: nat := 10

  const PasswordRule := StringRule(required := true, trim := true, maxLength := None, allowed := None, default := None)
  const EmailRule := StringRule(required := true, trim := true, maxLength := None, allowed := None, default := None)

  /** Whether path `f` passes its validators; the email predicate runs on
      any defined email. */
  predicate PathValid(password: Option<string>, email: Option<string>, isEmail: string -> bool, f: Field) {
    match f
    case Password => StringValid(PasswordRule, password)
    case Email => StringValid(EmailRule, email) && (email.Some? ==> isEmail(email.value))
  }

  /** The paths of a document whose validators fail. */
  function Faults(password: Option<string>, email: Option<string>, isEmail: string -> bool): (r: set<Field>)
    ensures Password in r <==> password.None? || password.value == ""
    ensures Email in r <==> email.None? || email.value == "" || !isEmail(email.value)
  {
    set f: Field | !PathValid(password, email, isEmail, f)
  }

  /** The access token a new document holds: the given one, or else the
      256 lower-case hex digits of the random bytes, from which the bytes can
      be read back. */
  function InitialToken(given: Option<string>, entropy: seq<byte>): (t: string)
    requires |entropy| == TokenBytes
    ensures given.Some? ==> t == given.value
    ensures given.None? ==> |t| == 2 * TokenBytes && Decode(t) == Some(entropy)
    ensures given.None? ==> forall i :: 0 <= i < |t| ==> IsHexDigit(t[i])
  {
    if given.Some? then given.value else DecodeEncode(entropy); Encode(entropy)
  }

  /** Built from `raw`, a document fails validation on a password that is left
      out or only whitespace, and on an email that is left out, only
      whitespace, or not an email once trimmed. */
  lemma NewDocumentFaults(raw: RawModerator, isEmail: string -> bool)
    ensures var r := Faults(CastString(PasswordRule, raw.password), CastString(EmailRule, raw.email), isEmail);
      && (Password in r <==> raw.password.None? || AllWhitespace(raw.password.value))
      && (Email in r <==> raw.email.None? || AllWhitespace(raw.email.value) || !isEmail(Trim(raw.email.value)))
  {
    if raw.password.Some? { TrimEmptyIff(raw.password.value); }
    if raw.email.Some? { TrimEmptyIff(raw.email.value); }
  }

  class ModeratorDocument {
    var password: Option<string>
    var email: Option<string>
    var accessToken: string
    /** Not yet saved. */
    var isNew: bool
    /** What `isModified('password')` answers. */
    var passwordModified: bool

    ghost predicate Valid()
      reads this
    {
      passwordModified ==> password.Some?
    }

    /** `new Moderator(raw)`: given strings are trimmed, the access token
        defaults, and a given password counts as modified. */
    constructor (raw: RawModerator, entropy: seq<byte>)
      requires |entropy| == TokenBytes
      ensures Valid()
      ensures password == raw.password.MapValue(Trim) && email == raw.email.MapValue(Trim)
      ensures accessToken == InitialToken(raw.accessToken, entropy)
      ensures isNew && passwordModified == raw.password.Some?
    {
      password := CastString(PasswordRule, raw.password);
      email := CastString(EmailRule, raw.email);
      accessToken := InitialToken(raw.accessToken, entropy);
      isNew := true;
      passwordModified := raw.password.Some?;
    }

    /** Assigning the password: the trim setter runs, and the path is marked
        modified unless a saved document gets the value it already holds. */
    method SetPassword(p: string)
      modifies this`password, this`passwordModified
      ensures Valid()
      ensures password == Some(Trim(p))
      ensures passwordModified == (old(passwordModified) || isNew || old(password) != Some(Trim(p)))
    {
      var t := Trim(p);
      var changed := password != Some(t);
      passwordModified := passwordModified || isNew || changed;
      password := Some(t);
    }

    /** The pre-save hook: hash the password with a fresh salt when it was
        modified, and otherwise leave the document alone. The hash is
        assigned to the password path, so its `trim` setter runs on it. */
    method PreSave(hash: (string, string) -> string, genSalt: nat -> string)
      requires Valid()
      modifies this`password
      ensures Valid()
      ensures passwordModified ==> password == Some(Trim(hash(old(password).value, genSalt(SaltRounds))))
      ensures !passwordModified ==> password == old(password)
    {
      if !passwordModified {
        return;
      }
      var salt := genSalt(SaltRounds);
      password := CastString(PasswordRule, Some(hash(password.value, salt)));
    }

    /** `save()`: validation first; on failure nothing changes, otherwise the
        hook runs and the document is stored, no longer new or modified. */
    method Save(hash: (string, string) -> string, genSalt: nat -> string, isEmail: string -> bool)
      returns (faults: set<Field>)
      requires Valid()
      modifies this
      ensures Valid()
      ensures faults == Faults(old(password), old(email), isEmail)
      ensures faults != {} ==> unchanged(this)
      ensures faults == {} ==>
        && password == (if old(passwordModified) then Some(Trim(hash(old(password).value, genSalt(SaltRounds))))
                        else old(password))
        && email == old(email) && accessToken == old(accessToken)
        && !isNew && !passwordModified
    {
      faults := Faults(password, email, isEmail);
      if faults == {} {
        PreSave(hash, genSalt);
        isNew := false;
        passwordModified := false;
      }
    }
  }

  /** Saving twice with no password change in between hashes at most once:
      after the first successful save the password is hashed once, or left as
      it was, whatever the second save does. */
  method SaveTwice(doc: ModeratorDocument, hash: (string, string) -> string, genSalt: nat -> string,
                   isEmail: string -> bool)
    returns (first: set<Field>, second: set<Field>)
    requires doc.Valid()
    modifies doc
    ensures doc.Valid()
    ensures first == {} ==>
      doc.password == (if old(doc.passwordModified) then Some(Trim(hash(old(doc.password).value, genSalt(SaltRounds))))
                       else old(doc.password))
    ensures first == {} ==> doc.accessToken == old(doc.accessToken)
    ensures first != {} ==> second == first && unchanged(doc)
  {
    first := doc.Save(hash, genSalt, isEmail);
    second := doc.Save(hash, genSalt, isEmail);
  }
}
