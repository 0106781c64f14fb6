# streamlit-azure-login: the authentication core

This project models the authentication core of the `streamlit_azure_login`
Streamlit component (`streamlit_azure_login/__init__.py`):

- **`Account`**, the dataclass that holds one login's result
  (`authenticated`, `token`, `token_expire_date`, `user` and the raw expiry
  string `_token_expire_date`). Its `__post_init__` normalises the expiry. If
  the raw string is truthy, every `'Z'` is removed from it and the result is
  parsed with `datetime.fromisoformat`. That parse overwrites
  `token_expire_date` in place. (module `Accounts`, file `account.dfy`)
- **`RequiredLogin` / `ExpiredToken`**, the two exceptions. Each keeps its
  message as given. Their `__str__` returns the message only when it is
  truthy. (module `AuthErrors`, file `errors.dfy`)
- **`token_required`**, the decorator. It reads `session_state.account` and
  makes a decision. An unauthenticated account raises `RequiredLogin("Login necessário")`.
  An account whose `token_expire_date < now` raises `ExpiredToken("Token Expirado")`.
  Otherwise the wrapped function is called once and its result is returned
  unchanged. `Check` is the decision as a function. `CheckToken` is the
  wrapper as a method around a call-counting `ProtectedOperation`.
  (module `TokenGuard`, file `guard.dfy`)
- **The session write in `azure_login`**. The key `key` of `session_state`
  always receives a newly built `Account(**auth)`. The `if` and `else`
  branches of the source are identical, and the model keeps both.
  (module `Session`, file `session.dfy`)

Modelling choices:

- Time is an integer. The instant of a naive `DateTime` is a wall-clock
  reading with no zone attached. The wall clock (`datetime.now()`, the
  host's local reading) is the parameter `now`.
- A `datetime` is `DateTime(instant, aware)`. Python refuses to order a naive
  datetime against an aware one, and `datetime.now()` is naive.
- `datetime.fromisoformat` is the function parameter
  `parse: string -> Option<DateTime>`. `None` means that it raises
  `ValueError`.
- Errors that the guard's own code runs into are explicit outcomes
  (`Crash`), not preconditions:
  - `session_state.account` missing gives `AttributeError`, modelled as `MissingAccount`.
  - `None < datetime`, or an aware expiry compared with the naive `now`, gives `TypeError`, modelled as `IncomparableExpiry`.
- Raised exceptions become returned outcomes.
- The wrapped function is a pure function `run` plus a call counter. This
  lets the contract say "called exactly once" and "never called".
- The guard always reads the key `"account"`. `azure_login` writes under
  its `key` argument. After a login under any other key, the guard finds no
  account (`MissingAccount`) unless an `"account"` entry already exists.
  `Current` and `AzureLogin` state both halves of this.
- `azure_login` is annotated `-> Account` but has no `return` statement, so
  it returns `None`. `AzureLogin` returns only whether the account was
  stored.
- `str.replace("Z", "")` removes every `'Z'`, not only a trailing UTC
  designator. `InnerZRemoved` states this. `TrailingDesignatorRemoved` shows
  the designator case: a `'Z'`-free timestamp with the designator appended
  reaches the parser unchanged.
- The `azure_login` docstring promises that an unauthenticated login leaves
  `False` in `authenticated` and `None` everywhere else. The code does not
  enforce this: `Account` copies `token` and `user` from the payload and
  parses a truthy raw expiry whatever `authenticated` says.
  `UnauthenticatedPayloadKept` states this. The promise holds only when the
  login widget itself sends such a payload.

## Model

| member | source | states |
|---|---|---|
| `Accounts.RemoveZ` | streamlit_azure_login/__init__.py:25 | The result has no `'Z'`. Its multiset of characters is the input's with every `'Z'` removed and every other character kept. |
| `Accounts.RemoveZIdentity` | streamlit_azure_login/__init__.py:25 | A string without `'Z'` is returned unchanged. |
| `Accounts.RemoveZIdempotent` | streamlit_azure_login/__init__.py:25 | Removing `'Z'` a second time changes nothing. |
| `Accounts.RemoveZAppend` | streamlit_azure_login/__init__.py:25 | The removal distributes over concatenation, so the surviving characters keep their order. |
| `Accounts.InnerZRemoved` | streamlit_azure_login/__init__.py:25 | A `'Z'` in the middle of the string is removed too, not only a trailing one. |
| `Accounts.TrailingDesignatorRemoved` | streamlit_azure_login/__init__.py:24-25 | A `'Z'`-free timestamp followed by the UTC designator reaches the parser as the bare timestamp. |
| `Accounts.ParserInput` | streamlit_azure_login/__init__.py:23-25 | The parser is called exactly when the raw expiry is truthy (not `None`, not empty). Its argument is then the raw string with every `'Z'` removed: it has no `'Z'` and holds every other character of the raw string, in order. |
| `Accounts.InitExpiry` | streamlit_azure_login/__init__.py:22-26 | A falsy raw expiry keeps the constructor-supplied `token_expire_date`. A truthy one yields the parse of the stripped string. When that parse fails, the failure names the stripped string. |
| `Accounts.ParserConsultedOnlyAtInput` | streamlit_azure_login/__init__.py:22-26 | The outcome depends on the parser only at the stripped raw string. It does not depend on the parser at all when the raw expiry is falsy. |
| `Accounts.Account.constructor` | streamlit_azure_login/__init__.py:13-20 | Every field takes its keyword argument. A missing keyword takes the default `None`. |
| `Accounts.Account.PostInit` | streamlit_azure_login/__init__.py:22-26 | `token_expire_date` is overwritten in place only on a successful parse. It fails exactly when the parse raises. No other field changes. |
| `Accounts.Account.FromPayload` | streamlit_azure_login/__init__.py:13-26 | `Account(**p)` either fails exactly when the expiry does not parse, or returns a new object that describes `p` alone. |
| `AuthErrors.Str` | streamlit_azure_login/__init__.py:29-44 | `__str__` returns the stored message exactly when it is truthy, and `None` otherwise. |
| `AuthErrors.GuardMessagesShown` | streamlit_azure_login/__init__.py:50-54 | The two messages the guard raises with are truthy, so `__str__` returns them. |
| `TokenGuard.Check` | streamlit_azure_login/__init__.py:49-56 | Each outcome has its exact condition. No account gives `AttributeError`. Unauthenticated gives `RequiredLogin("Login necessário")`, whatever the expiry, because the authentication check comes first. Authenticated with no expiry or an aware one gives `TypeError`. A naive expiry strictly before `now` gives `ExpiredToken("Token Expirado")`. The call proceeds exactly when the account is authenticated and `now <=` the expiry, so equality still passes. |
| `TokenGuard.CheckMonotoneInTime` | streamlit_azure_login/__init__.py:53-56 | A call let through at some time is let through at every earlier time. A token found expired stays expired at every later time. |
| `Accounts.UnauthenticatedPayloadKept` | streamlit_azure_login/__init__.py:13-26 | An account built from an unauthenticated payload keeps that payload's token, user and parsed expiry. Nothing blanks them. |
| `TokenGuard.DecisionAfterLogin` | streamlit_azure_login/__init__.py:50-54 | On a freshly built account: an unauthenticated payload is refused with `RequiredLogin`. A parsed expiry lets calls through up to and including its instant when it is naive. An authenticated payload without any expiry makes the guard fail with `TypeError`. |
| `TokenGuard.ProtectedOperation.Call` | streamlit_azure_login/__init__.py:56 | The wrapped function returns `run(arg)`, and its call count rises by one. |
| `TokenGuard.CheckToken` | streamlit_azure_login/__init__.py:47-58 | The wrapped operation runs exactly once, and its result is returned unchanged, exactly when `Check` says `Invoke`. Otherwise it is never run, and the raised error or crash is the one `Check` names. |
| `Session.SessionState.Current` | streamlit_azure_login/__init__.py:50 | `session_state.account` is the entry under `"account"` when present, and absent otherwise. |
| `Session.SessionState.AzureLogin` | streamlit_azure_login/__init__.py:147-150 | Whether or not `key` existed, `session_state[key]` becomes a fresh `Account` that describes the payload alone, with no merge, and every other key is unchanged. When the expiry does not parse, nothing is written. |

## Left out

- The component declaration and the frontend build path (`_RELEASE`, `declare_component`). These are framework registration and file paths.
- The call to the login widget and the `while auth is None: sleep(0.1)` poll. These are UI transport and a blocking wait. `auth` is never reassigned in the loop, so the loop never ends once entered. The widget's payload is an input of `AzureLogin` instead.
- `datetime.fromisoformat`'s own grammar. It is the parameter `parse`.
- `datetime.now()`. It is the parameter `now`.
- Aware-datetime arithmetic (UTC offsets). An aware expiry is only ever compared with the naive `now`, and that comparison raises.
- `Account(**auth)` with a key that is not a field, or without `authenticated`. This raises `TypeError`, and the payload is modelled as a typed record.
- `token_expire_date` values that are not a `datetime` or `None`. A payload that crosses the JSON boundary could carry a string there, and `str < datetime` at line 53 would then raise `TypeError`. The typed record cannot represent such a value.
- `Check`: the time-zone mismatch between the expiry and `now` is not modelled. Removing `'Z'` turns a UTC timestamp into a naive datetime holding the UTC reading. `datetime.now()` gives the host's naive local reading. So the guard misjudges expiry by the host's UTC offset. For example, on a UTC-3 host a token that expires at 12:00Z keeps passing until 15:00Z. `Check` compares the two readings as given, as the code does, with no offset.
- Non-boolean truthiness of `authenticated`, and non-string messages. Both are modelled as `bool` and `Option<string>`.
- `ProtectedOperation.Call`: the wrapped function is modelled as pure. Its own side effects and exceptions are not modelled, and they pass through the guard untouched.
- Token refresh, revocation, PKCE and the OAuth2 authorization-code handshake. None of these is in this code. The handshake happens in the frontend bundle, which is not part of this model.
- `Str`: only the value `__str__` returns is modelled. For a falsy message that value is `None`, so `str()` or printing the error raises `TypeError: __str__ returned non-string`. That raise is not modelled.
- `setup.py`. It holds packaging metadata only.
