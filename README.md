# Crypter client decision logic, in Dafny

This project models three pieces of decision logic from the Crypter file
transfer client and proves what they promise.

- **Registration form** (`WebShared`, from `RegisterComponentBase`): the
  username, password and confirmation validators, which run in a fixed order
  and stop at the first failure. Each writes its field's validation message
  and CSS class. The server's `InsertUserResult` then sets either the success
  fields or the error fields, with the error text taken from a five-entry
  table. The component is a class whose methods update its fields. Pure
  functions give each rule's verdict, and predicates give the rules
  themselves, independent of the order of checks.
- **Authorization-gated requests** (`WebServices`, from `HttpService`): a
  class holding local storage (a map from item kind to value), the list of
  navigation targets and the log of requests handed to the transport.
  `SendRequest` is proved against the function `Exchange`, which states each
  path: a missing item, a transport exception, a 401 response, and any other
  response. Lemmas about a whole session of calls, each call answered by its
  own transport reply (so one request may succeed and later get a 401), show
  two things. Storage is only ever kept or cleared. Every request sent
  carries either no credentials or the bearer token stored when the session
  began.
- **Status to result mapping** (`CrypterHttpClient`): pure functions from a
  response (status, body, `Content-Length`) to `Maybe`, `Either`, `Unit` or a
  stream download. Each public call also fixes the request it builds (method,
  URI, JSON content or none).

`Monads` holds the result algebra (`Maybe`, `Either`, `Unit`). `Http` holds
the request shape and the success-status test (2xx).

External collaborators are parameters:

- the transport (`HttpClient.SendAsync`): `transport` in `HttpService`,
  where a thrown exception is `Threw`, and `send` in `CrypterHttpClient`,
  which always returns a response;
- JSON deserialization of success and error bodies: `parse` and `parseError`;
- JSON serialization of request bodies: `serialize`;
- the credential digest with its Base64 encoding: `authPassword`;
- the user API's registration call: `userService`.

Two behaviours of the code are kept as written, though they may surprise:

- A missing token on an authenticated request is not a separate local
  failure. As `HttpService.cs` is written, it clears storage, navigates to
  `/` and returns `Unauthorized`, exactly as a 401 response does.
- `DeleteUnitResponseAsync` sends a POST, not a DELETE, and the model does
  the same.

## Model

| member | source | states |
|---|---|---|
| `CrypterHttpClient.SendRequestMaybeResponse` | Crypter.Common.Client/Implementations/CrypterHttpClient.cs:133-143 | `Some` exactly on a 2xx status, holding the parsed body; `None` otherwise, whatever the body |
| `CrypterHttpClient.SendRequestEitherResponse` | Crypter.Common.Client/Implementations/CrypterHttpClient.cs:145-155 | `Right` exactly on a 2xx status, holding the parsed body; otherwise `Left` of the parsed error body |
| `CrypterHttpClient.SendRequestEitherUnitResponse` | Crypter.Common.Client/Implementations/CrypterHttpClient.cs:157-164 | `Right(Unit)` exactly on a 2xx status; otherwise `Left` of the parsed error body |
| `CrypterHttpClient.GetStream` | Crypter.Common.Client/Implementations/CrypterHttpClient.cs:166-177 | on 2xx, `Right` of the body stream with size equal to `Content-Length`, which must be present; otherwise `Left` of the parsed error body |
| `CrypterHttpClient.SuccessAsUnit` | Crypter.Common.Client/Implementations/CrypterHttpClient.cs:91-93 | `Some(Unit)` if and only if the status is 2xx |
| `CrypterHttpClient.GetMaybe` | Crypter.Common.Client/Implementations/CrypterHttpClient.cs:53-58 | sends a GET for the URI with no content; the Maybe mapping of its response |
| `CrypterHttpClient.GetEither` | Crypter.Common.Client/Implementations/CrypterHttpClient.cs:60-65 | sends a GET for the URI with no content; the Either mapping of its response |
| `CrypterHttpClient.GetEitherUnitResponse` | Crypter.Common.Client/Implementations/CrypterHttpClient.cs:67-71 | sends a GET for the URI with no content; the Either-unit mapping of its response |
| `CrypterHttpClient.GetStreamResponse` | Crypter.Common.Client/Implementations/CrypterHttpClient.cs:73-77 | sends a GET for the URI with no content; the stream mapping of its response |
| `CrypterHttpClient.PostEither` | Crypter.Common.Client/Implementations/CrypterHttpClient.cs:79-85 | sends a POST whose content is the serialized body; the Either mapping of its response |
| `CrypterHttpClient.PostMaybeUnitResponse` | Crypter.Common.Client/Implementations/CrypterHttpClient.cs:87-94 | sends a POST with no content; `Some(Unit)` if and only if the status is 2xx |
| `CrypterHttpClient.PostEitherUnitResponse` | Crypter.Common.Client/Implementations/CrypterHttpClient.cs:96-100 | sends a POST with no content; the Either-unit mapping of its response |
| `CrypterHttpClient.PostEitherUnitResponseWithBody` | Crypter.Common.Client/Implementations/CrypterHttpClient.cs:102-107 | sends a POST whose content is the serialized body; the Either-unit mapping of its response |
| `CrypterHttpClient.DeleteUnitResponse` | Crypter.Common.Client/Implementations/CrypterHttpClient.cs:109-116 | sends a POST (as written) with no content; `Some(Unit)` if and only if the status is 2xx |
| `CrypterHttpClient.Send` | Crypter.Common.Client/Implementations/CrypterHttpClient.cs:118-122 | sends the caller's request unchanged; the Either mapping of its response |
| `WebServices.Exchange` | Crypter.Web/Services/HttpService.cs:76-110 | missing session or token: nothing sent, storage cleared, navigate to `/`, `Unauthorized`. Otherwise the request is sent with `Bearer <stored token>` when authorized and unchanged when not. Transport exception: `ServiceUnavailable`, storage kept, no navigation. 401: signed out as before. Any other status: that status with the parsed body. Storage changes and navigation happen only when `Unauthorized` is returned |
| `WebServices.UnauthenticatedIgnoresStorage` | Crypter.Web/Services/HttpService.cs:79-89 | without authorization, the request sent, the status, the payload and the navigation do not depend on what is stored |
| `WebServices.HttpService.HandleMissingAuthorization` | Crypter.Web/Services/HttpService.cs:112-117 | clears storage, appends `/` to navigation, returns `Unauthorized` with no payload |
| `WebServices.HttpService.SendRequest` | Crypter.Web/Services/HttpService.cs:76-110 | new storage, the sent-request log, the navigation log, status and payload are exactly those `Exchange` gives for the old storage |
| `WebServices.HttpService.Get` | Crypter.Web/Services/HttpService.cs:61-65 | `SendRequest` of a GET for the URI with no content |
| `WebServices.HttpService.Post` | Crypter.Web/Services/HttpService.cs:67-74 | `SendRequest` of a POST whose content is the serialized value |
| `WebServices.HttpService.constructor` | Crypter.Web/Services/HttpService.cs:50-59 | the service starts with the given stored items, no navigation and no request sent |
| `WebServices.SessionOnlyClearsStorage` | Crypter.Web/Services/HttpService.cs:76-117 | after any sequence of calls, each answered by its own transport reply, storage is either unchanged or empty: the service never stores an item |
| `WebServices.SessionCredentials` | Crypter.Web/Services/HttpService.cs:79-117 | every request a sequence of calls sends, whatever each call's transport replies, has no Authorization header, or has `Bearer` with the token stored at the start, which held both items; once an item is missing, no credentials are ever sent |
| `WebShared.Utf16Length` | Crypter.Web/Shared/RegisterComponent.razor.cs:98 | the C# `Length` of a string: at least one and at most two UTF-16 code units per character, zero exactly for the empty string |
| `WebShared.Utf16LengthOfWide` | Crypter.Web/Shared/RegisterComponent.razor.cs:98 | a string made only of characters outside the Basic Multilingual Plane has twice as many code units as characters |
| `WebShared.UsernameError` | Crypter.Web/Shared/RegisterComponent.razor.cs:90-113 | no error if and only if the username is non-empty, at most 32 UTF-16 code units long and has no space; "Please choose a username" exactly when empty, "Username exceeds 32-character limit" exactly when longer than 32 code units, "Username may not contain spaces" exactly when of valid length with a space |
| `WebShared.WideUsernameTooLong` | Crypter.Web/Shared/RegisterComponent.razor.cs:98-103 | 17 characters U+1F600 (34 code units) are reported as too long |
| `WebShared.PasswordError` | Crypter.Web/Shared/RegisterComponent.razor.cs:115-126 | no error if and only if the password is non-empty; otherwise "Please enter a password" |
| `WebShared.ConfirmationError` | Crypter.Web/Shared/RegisterComponent.razor.cs:128-145 | no error if and only if the confirmation is non-empty and equals the password; "Please confirm your password" exactly when empty, "Passwords do not match" exactly when non-empty and different |
| `WebShared.Feedback` | Crypter.Web/Shared/RegisterComponent.razor.cs:94-111 | a failing check sets the message and the class `is-invalid`; a passing check resets the class to `""` and keeps the old message |
| `WebShared.ErrorText` | Crypter.Web/Shared/RegisterComponent.razor.cs:163-171 | the text is `???` if and only if the result is not one of the five listed failures |
| `WebShared.ErrorTextDistinguishes` | Crypter.Web/Shared/RegisterComponent.razor.cs:163-171 | two listed failures with the same text are the same failure |
| `WebShared.RegisterComponent.ValidateUsername` | Crypter.Web/Shared/RegisterComponent.razor.cs:90-113 | returns whether the username is acceptable; the username field's feedback becomes `Feedback` of its verdict; nothing else changes |
| `WebShared.RegisterComponent.ValidatePassword` | Crypter.Web/Shared/RegisterComponent.razor.cs:115-126 | returns whether the password is non-empty; only the password field's feedback changes, as `Feedback` says |
| `WebShared.RegisterComponent.ValidatePasswordConfirmation` | Crypter.Web/Shared/RegisterComponent.razor.cs:128-145 | returns whether the confirmation is non-empty and equal; only the confirmation field's feedback changes, as `Feedback` says |
| `WebShared.RegisterComponent.ValidateForm` | Crypter.Web/Shared/RegisterComponent.razor.cs:83-88 | returns whether all three rules hold. The username field is always checked. The password field is checked only after the username passed. The confirmation field is checked only after both passed. An unchecked field is left unchanged |
| `WebShared.RegisterComponent.OnRegisterClicked` | Crypter.Web/Shared/RegisterComponent.razor.cs:147-178 | an invalid form sends nothing and changes no outcome field. A valid form sends exactly one request (username, digested password, email, possibly `null`). A non-`Success` reply sets the error flag and `ErrorText`, leaving the success fields. `Success` sets the success flag and records whether the email is neither `null` nor empty, leaving the error fields |
| `WebShared.RegisterComponent.constructor` | Crypter.Web/Shared/RegisterComponent.razor.cs:49-72 | all flags false, texts and classes empty, nothing sent |

## Left out

- `CrypterHttpClient.GetStream`: requires `Content-Length` to be present on a success response. The source dereferences it with `!.Value` and throws when it is absent; that exception path is not modelled.
- `CrypterHttpClient.GetStreamResponse`: carries the same requirement on the response to its GET, for the same reason; the exception for a missing `Content-Length` is not modelled.
- `CrypterHttpClient`: none of its calls catches an exception thrown by the transport, so such an exception reaches the caller. `send` always returns a response, so only calls that get one are modelled.
- `WebShared.Utf16Length`: a C# string may hold a lone UTF-16 surrogate, which `Length` counts as one unit. A Dafny `char` is a Unicode scalar value and cannot hold one, so usernames containing a lone surrogate are outside the model.
- `WebShared.RegisterComponent.constructor`: the three validation-message fields start as `null` in C#, and here as `""`. Which of the two the page would display before the first validation is not part of this model.
- A `null` username, password or confirmation is the empty string here. The component tests them only with `IsNullOrEmpty`, and an empty one fails validation before it is used, so no request can tell the two apart. The email address is not validated and goes into the request as it is, so it is a nullable string (`None` for `null`).
- JSON deserialization and serialization are abstract functions. Parse failures (exceptions) and the camelCase naming policy are not modelled.
- `ErrorResponse` is reduced to its error code, because its definition is not part of this model.
- Local storage holds only the two item kinds `SendRequest` consults (`UserSession`, `AuthToken`). Clearing it (`DisposeAsync`) empties the map; how storage persists is not modelled.
- The Authorization header is set on the request object in place; here the sent request is a new value with the header, because nothing else holds the request.
- `using`/`Dispose`, `ConfigureAwait` and the `async`/`Task` structure are resource and concurrency plumbing with no decision logic, so they are not modelled.
- `OnInitializedAsync` (redirect to `/user` when a session is stored) is navigation glue and is not modelled.
- The credential digest (`DeriveAuthenticationPasswordFromUserCredentials` plus Base64) is a foreign cryptographic call. It is the parameter `authPassword`.
- `RegisterUserAsync` is a network call. It is the parameter `userService`, and its reply is an input.
- The integration tests (file upload, private key insertion, recovery email) exercise server code that is not part of this model: key exchange, stream encryption and the transfer client.
