/** The `Account` dataclass: what one login produced, and the normalisation of
    the raw expiry string that its `__post_init__` performs. */
module Accounts {
  import opened PyValues

  /** A `datetime`. For a naive datetime, `instant` is a wall-clock reading
      with no zone attached; `aware` tells whether it carries a UTC offset.
      Python refuses to order a naive and an aware datetime, and
      `datetime.now()` is the host's naive local reading. */
  datatype DateTime = DateTime(instant: int, aware: bool)

  /** The user claims dictionary returned by the login widget. */
  type UserInfo = map<string, string>

  /** The keyword arguments of `Account(**auth)`: a key the widget leaves out
      takes the dataclass default `None`. */
  datatype Payload = Payload(
    authenticated: bool,
    token: Option<string>,
    tokenExpireDate: Option<DateTime>,
    user: Option<UserInfo>,
    rawTokenExpireDate: Option<string>)

  /** `s.replace("Z", "")`: every 'Z' goes, wherever it stands, and every
      other character stays. */
  function RemoveZ(s: string): (r: string)
    ensures 'Z' !in r
    ensures multiset(r) == multiset(s)['Z' := 0]
  {
    if s == [] then []
    else
      assert s == [s[0]] + s[1..];
      if s[0] == 'Z' then RemoveZ(s[1..]) else [s[0]] + RemoveZ(s[1..])
  }

  /** A string without 'Z' is left as it is. */
  lemma {:induction false} RemoveZIdentity(s: string)
    requires 'Z' !in s
    ensures RemoveZ(s) == s
  {
    if s != [] {
      RemoveZIdentity(s[1..]);
    }
  }

  /** Removing 'Z' twice removes nothing more. */
  lemma {:induction false} RemoveZIdempotent(s: string)
    ensures RemoveZ(RemoveZ(s)) == RemoveZ(s)
  {
    RemoveZIdentity(RemoveZ(s));
  }

  /** The removal works character by character, so it keeps the order of what
      remains: it distributes over concatenation. */
  lemma {:induction false} RemoveZAppend(a: string, b: string)
    ensures RemoveZ(a + b) == RemoveZ(a) + RemoveZ(b)
  {
    if a == [] {
      assert a + b == b;
    } else {
      assert (a + b)[0] == a[0] && (a + b)[1..] == a[1..] + b;
      RemoveZAppend(a[1..], b);
    }
  }

  /** A 'Z' anywhere in the string is dropped, not only a trailing one. */
  lemma InnerZRemoved(a: string, b: string)
    ensures RemoveZ(a + "Z" + b) == RemoveZ(a) + RemoveZ(b)
  {
    RemoveZAppend(a + "Z", b);
    RemoveZAppend(a, "Z");
  }

  /** An ISO timestamp written with the UTC designator reaches the parser
      exactly as the same timestamp written without it. */
  lemma TrailingDesignatorRemoved(s: string)
    requires 'Z' !in s
    ensures RemoveZ(s + "Z") == s
  {
    RemoveZAppend(s, "Z");
    RemoveZIdentity(s);
  }

  /** The argument `__post_init__` hands to `datetime.fromisoformat`, or
      `None` when it does not call the parser at all. */
  function ParserInput(raw: Option<string>): (arg: Option<string>)
    ensures arg.Some? <==> Truthy(raw)
    ensures arg.Some? ==> 'Z' !in arg.value
    ensures arg.Some? ==> multiset(arg.value) == multiset(raw.value)['Z' := 0]
    ensures arg.Some? ==> arg.value == RemoveZ(raw.value)
  {
    if Truthy(raw) then Some(RemoveZ(raw.value)) else None
  }

  /** What `__post_init__` leaves in `token_expire_date`: `Kept` the value the
      constructor was given, `Parsed` the parser's result, or `Malformed` when
      `fromisoformat` raises `ValueError` on `input`. */
  datatype ExpiryInit = Kept(given: Option<DateTime>) | Parsed(expiry: DateTime) | Malformed(input: string)

  /** The expiry normalisation of `__post_init__`, with `parse` standing for
      `datetime.fromisoformat` (`None` = it raises). */
  function InitExpiry(given: Option<DateTime>, raw: Option<string>, parse: string -> Option<DateTime>): (r: ExpiryInit)
    ensures r.Kept? <==> !Truthy(raw)
    ensures r.Kept? ==> r.given == given
    ensures r.Parsed? ==> Truthy(raw) && parse(RemoveZ(raw.value)) == Some(r.expiry)
    ensures r.Malformed? <==> Truthy(raw) && parse(RemoveZ(raw.value)) == None
    ensures r.Malformed? ==> r.input == RemoveZ(raw.value) && 'Z' !in r.input
  {
    match ParserInput(raw)
    case None => Kept(given)
    case Some(arg) =>
      match parse(arg)
      case None => Malformed(arg)
      case Some(t) => Parsed(t)
  }

  /** The parser is consulted at one string only, the raw expiry with every
      'Z' removed: two parsers that agree there give the same outcome, and when
      the raw expiry is `None` or empty the parser does not matter at all. */
  lemma ParserConsultedOnlyAtInput(given: Option<DateTime>, raw: Option<string>,
                                   parse1: string -> Option<DateTime>, parse2: string -> Option<DateTime>)
    requires Truthy(raw) ==> parse1(RemoveZ(raw.value)) == parse2(RemoveZ(raw.value))
    ensures InitExpiry(given, raw, parse1) == InitExpiry(given, raw, parse2)
  {
  }

  /** Result of `Account(**auth)`: the new object, or the `ValueError` raised
      by `fromisoformat` on `input`. */
  datatype Built = Created(account: Account) | ParseFailed(input: string)

  class Account {
    var authenticated: bool
    var token: Option<string>
    var tokenExpireDate: Option<DateTime>
    var user: Option<UserInfo>
    var rawTokenExpireDate: Option<string>

    /** The `__init__` that `@dataclass` generates: every field from its
        keyword argument. */
    constructor (p: Payload)
      ensures authenticated == p.authenticated && token == p.token
      ensures tokenExpireDate == p.tokenExpireDate && user == p.user
      ensures rawTokenExpireDate == p.rawTokenExpireDate
    {
      authenticated := p.authenticated;
      token := p.token;
      tokenExpireDate := p.tokenExpireDate;
      user := p.user;
      rawTokenExpireDate := p.rawTokenExpireDate;
    }

    /** `__post_init__`: when the raw expiry string is truthy, overwrite
        `token_expire_date` in place with the parse of that string stripped of
        every 'Z'. `ok` is false when the parser raises; the field is then left
        as it was. No other field changes. */
    method PostInit(parse: string -> Option<DateTime>) returns (ok: bool)
      modifies this
      ensures authenticated == old(authenticated) && token == old(token)
      ensures user == old(user) && rawTokenExpireDate == old(rawTokenExpireDate)
      ensures ok <==> !InitExpiry(old(tokenExpireDate), rawTokenExpireDate, parse).Malformed?
      ensures tokenExpireDate ==
        match InitExpiry(old(tokenExpireDate), rawTokenExpireDate, parse)
        case Parsed(t) => Some(t)
        case _ => old(tokenExpireDate)
    {
      ok := true;
      if Truthy(rawTokenExpireDate) {
        var parsed := parse(RemoveZ(rawTokenExpireDate.value));
        if parsed.None? {
          ok := false;
        } else {
          tokenExpireDate := parsed;
        }
      }
    }

    /** `Account(**auth)`: construct, then run `__post_init__`. On success the
        account is a new object whose fields come from `p` alone, with the
        expiry normalised; on a parse failure no account escapes. */
    static method FromPayload(p: Payload, parse: string -> Option<DateTime>) returns (b: Built)
      ensures b.ParseFailed? <==> InitExpiry(p.tokenExpireDate, p.rawTokenExpireDate, parse).Malformed?
      ensures b.ParseFailed? ==> b.input == RemoveZ(p.rawTokenExpireDate.value)
      ensures b.Created? ==> fresh(b.account) && b.account.Describes(p, parse)
    {
      var a := new Account(p);
      var ok := a.PostInit(parse);
      if ok {
        b := Created(a);
      } else {
        b := ParseFailed(RemoveZ(p.rawTokenExpireDate.value));
      }
    }

    /** This account is the one `Account(**p)` builds with `parse` as
        `fromisoformat`. */
    ghost predicate Describes(p: Payload, parse: string -> Option<DateTime>)
      reads this
    {
      authenticated == p.authenticated && token == p.token && user == p.user
      && rawTokenExpireDate == p.rawTokenExpireDate
      && match InitExpiry(p.tokenExpireDate, p.rawTokenExpireDate, parse)
         case Kept(given) => tokenExpireDate == given
         case Parsed(t) => tokenExpireDate == Some(t)
         case Malformed(_) => false
    }
  }

  /** Construction does not blank an unauthenticated login: the token, the
      user and a parsed expiry of the payload all reach the account whatever
      `authenticated` says. */
  lemma UnauthenticatedPayloadKept(a: Account, p: Payload, parse: string -> Option<DateTime>)
    requires a.Describes(p, parse) && !p.authenticated
    ensures !a.authenticated && a.token == p.token && a.user == p.user
    ensures Truthy(p.rawTokenExpireDate) ==> a.tokenExpireDate == parse(RemoveZ(p.rawTokenExpireDate.value))
  {
  }
}
