# BoxApps login and provider core, modelled in Dafny

This project models the helper library of BoxApps that logs a desktop application in to the
Box cloud with the legacy ticket-based scheme and then uses the account:

- **Request-token scraping and success detection** (`BoxLogin.ExtractRequestToken`,
  `BoxLogin.CheckAuthenticated`). They run over an ordinal string search (`StringSearch`) and
  keep the index arithmetic of BoxProvider.ExtractRequestToken, including the paths where it
  goes wrong.
- **The two login steps** (`BoxLogin.AuthenticateUser`, `BoxLogin.AuthenticateUserEx`).
  - The first step GETs the login page, scrapes its request token and POSTs the 13-field form.
  - A retry only POSTs, with the token the previous attempt left in its `ref` parameter.
  - Each step is a method proved against a ghost specification function (`SubmitSpec`,
    `FirstLoginSpec`).
  - The result of a step is an `Attempt`: what it returned or the exception that escaped it, the
    token left in the out/ref parameter, and the requests it issued.
- **The provider's state** (`BoxProvider.Provider`): the api key, the ticket, the authentication
  token, and which events have subscribers.
  - It includes the SDK completion callbacks.
  - It includes the `SetTags` URL loop (`AppendTags`) and the `ReadByte` download loop (`ReadToEnd`).
  - It includes the tag that `UploadFile` adds to encrypted uploads, and the status check that
    separates `GetFolderStructure` from `GetFiles`.
- **The login dialog** (`LoginDialog.LoginFormEx`): the first-attempt-versus-retry state machine
  of the Login button, the button's enabled rule, and Close.

The transport is an oracle. Each step receives the reply the server would give
(`Page(text)` or `WebFailure`) and returns the requests it sent. Replies of the BoxSync SDK
(statuses, tickets, folder trees, `ReadByte` values) are inputs. C# exceptions become explicit
outcomes (`Threw(fault)`, or an `escaped` out-parameter). Where one escapes midway, the
`out`/`ref` token and the form's fields keep the partial state that C# by-reference semantics
leave behind.

`BoxHelper/BoxProvider.cs` is an earlier copy of `BoxHelper/BoxProvider_complete.cs`: every
member of the former reappears verbatim in the latter. Each member is modelled once. The login
logic cites the earlier file and the additions cite the complete one. Inside `AuthenticateUser`,
the POST half is the body of `AuthenticateUserEx` line for line, so the model's
`AuthenticateUser` calls `AuthenticateUserEx` after the GET.

What the scraping of the request token does on pages that are not shaped `'...'` right after
the marker:

- `name='request_token' value='abc123'` yields ` value=`, not `abc123`: the first quote after
  the marker is the one that closes `name` (`LoginScenarios.ExtractAttributeForm`).
- An opening quote after the marker with no closing quote makes Substring throw
  `ArgumentOutOfRangeException` (`ExtractUnclosedQuoteFails`).
  A body with the marker and no quote at all also throws (`ExtractWithoutQuotesFails`). A body
  whose only quotes precede the marker yields the text before its first quote
  (`ExtractFallsBackToPrefix`).
- A login page without the marker yields the empty token, and the form is then posted with
  `request_token` empty; no error is raised (`ExtractRequestToken`, `FirstLoginPostsScrapedToken`).

## Model

| member | source | states |
|---|---|---|
| StringSearch.IndexOf | BoxHelper/BoxProvider.cs:368 | String.IndexOf(string) from a start index: -1 exactly when the pattern occurs nowhere from there, otherwise an index where it occurs with no occurrence before it |
| StringSearch.IndexOfChar | BoxHelper/BoxProvider.cs:371-372 | String.IndexOf(char, start): -1 exactly when the character does not occur from `start` on, otherwise the first index holding it |
| BoxLogin.CheckAuthenticated | BoxHelper/BoxProvider.cs:359-362 | true if and only if `api_auth_success` occurs in the POST response |
| BoxLogin.Substring | BoxHelper/BoxProvider.cs:374 | String.Substring(start, length) succeeds exactly when the range lies inside the string and then returns that slice; otherwise ArgumentOutOfRange |
| BoxLogin.ExtractRequestToken | BoxHelper/BoxProvider.cs:364-378 | a body without `request_token` gives the empty token; a scraped token never contains a quote; the call fails only with ArgumentOutOfRange and only when the marker is present |
| BoxLogin.ExtractBetweenQuotes | BoxHelper/BoxProvider.cs:368-374 | with idx the first marker, s the first quote at or after idx and e the next quote after s, the token is exactly body[s+1..e) |
| BoxLogin.ExtractUnclosedQuoteFails | BoxHelper/BoxProvider.cs:371-374 | an opening quote after the marker with no closing quote gives a negative length, and Substring throws: an error, not an empty token |
| BoxLogin.ExtractFallsBackToPrefix | BoxHelper/BoxProvider.cs:371-374 | no quote after the marker: the opening index is -1, the closing search restarts at 0, and the token is the body's prefix before its first quote, which lies before the marker |
| BoxLogin.ExtractWithoutQuotesFails | BoxHelper/BoxProvider.cs:371-374 | marker present and no quote anywhere: Substring(0, -1) throws |
| LoginScenarios.MarkerFirstAfterPrefix | BoxHelper/BoxProvider.cs:368 | a marker that follows a prefix free of the marker is the first occurrence in the body, because an occurrence cannot straddle the prefix boundary |
| LoginScenarios.ExtractLayout | BoxHelper/BoxProvider.cs:368-374 | for every page shaped prefix, marker, quote-free gap, quoted quote-free X, anything: the token is X |
| LoginScenarios.ExtractQuotedValue | BoxHelper/BoxProvider.cs:368-374 | a page containing `request_token='X'` with no earlier marker and X free of quotes yields exactly X |
| LoginScenarios.ExtractAttributeForm | BoxHelper/BoxProvider.cs:368-374 | when the marker is itself a quoted attribute value (`name='request_token' value='abc'`), the token is the text between the quote closing the marker and the next quote (` value=`), never the value |
| BoxLogin.AuthPageUrl | BoxHelper/BoxProvider.cs:177 | the login page is an `http://` address ending in the ticket |
| BoxLogin.LoginActionUrl | BoxHelper/BoxProvider.cs:207 | the form action is an `https://` address ending in the ticket |
| BoxLogin.LoginUrlsDifferInScheme | BoxHelper/BoxProvider.cs:177-207 | the form is posted to the login page's own address with `https` in place of `http`, so the two addresses differ |
| BoxLogin.LoginForm | BoxHelper/BoxProvider.cs:191-204 | thirteen fields with the fixed names in Add order; `login`, `password` and `request_token` hold the arguments |
| BoxLogin.LoginFormNames | BoxHelper/BoxProvider.cs:191-204 | every submission carries the same 13 field names in the same order, no name twice |
| BoxLogin.LoginFormValues | BoxHelper/BoxProvider.cs:191-204 | `login`, `password` and `request_token` carry the arguments; the ten other fields are identical in every submission |
| BoxLogin.SubmitSpec | BoxHelper/BoxProvider.cs:241-286 | one POST of the form with the held token to the https action URL; returns true if and only if the response carries the success marker; a WebException is swallowed and returns false with the token unchanged |
| BoxLogin.FirstLoginSpec | BoxHelper/BoxProvider.cs:173-228 | the first request is always the GET of the http login page; a failed GET escapes with the out token already cleared to "" (what follows a successful scrape: FirstLoginReplacesToken) |
| BoxLogin.AuthenticateUserEx | BoxHelper/BoxProvider.cs:241-286 | the method's attempt (result, ref token, requests) is exactly SubmitSpec's |
| BoxLogin.AuthenticateUser | BoxHelper/BoxProvider.cs:173-228 | the method's attempt (result or escaped exception, out token, requests) is exactly FirstLoginSpec's |
| BoxLogin.SubmitCarriesHeldToken | BoxHelper/BoxProvider.cs:204-208 | each submission posts to the action URL, and its `request_token` field is exactly the token it was given |
| BoxLogin.SubmitReplacesToken | BoxHelper/BoxProvider.cs:269-277 | after a readable response: success keeps the token; a rejection replaces it with the one scraped from the response; a failed scrape escapes and leaves the token as it was |
| BoxLogin.TokensNeverHoldQuotes | BoxHelper/BoxProvider.cs:173-286 | a token free of quotes stays free of quotes across any first attempt or retry |
| BoxLogin.FirstLoginReplacesToken | BoxHelper/BoxProvider.cs:164-224 | once the page's token was scraped, the out token is the next one: a failed POST is swallowed, returns false and keeps the page's token; a rejection installs the token scraped from the response; a success, or a scrape of the response that throws, keeps the page's token |
| BoxLogin.FirstLoginPostsScrapedToken | BoxHelper/BoxProvider.cs:177-217 | the first attempt POSTs if and only if the GET succeeded and its token was scraped, and then posts exactly that token; with no POST it escapes with the out token ""; it succeeds if and only if it posted and the response carries the success marker |
| BoxProvider.Digits | BoxHelper/BoxProvider_complete.cs:457 | the digits of `ID.ToString()` for a non-negative id: only its form (at least one decimal digit, no leading zero except for 0); the number they denote is DigitsDenote |
| BoxProvider.DigitsDenote | BoxHelper/BoxProvider_complete.cs:457 | the digits read back as a decimal number give the id they were written from |
| BoxProvider.DecimalText | BoxHelper/BoxProvider_complete.cs:457 | `ToString()` of a long: a leading `-` exactly for a negative id, decimal digits after it |
| BoxProvider.DecimalTextInjective | BoxHelper/BoxProvider_complete.cs:457 | two ids have the same text if and only if they are equal |
| BoxProvider.UpdateTagsUrl | BoxHelper/BoxProvider_complete.cs:101 | APIV1_UPDATE_TAGS: the add_to_tag REST endpoint, ending in the id's decimal text |
| BoxProvider.UpdateTagsUrlInjective | BoxHelper/BoxProvider_complete.cs:101 | for one api key, token and target kind, two ids give the same tag-update URL if and only if they are equal |
| BoxProvider.DownloadUrl | BoxHelper/BoxProvider_complete.cs:100 | APIV1_DOWNLOAD_FILE: the download endpoint, ending in the file id's decimal text |
| BoxProvider.DownloadUrlInjective | BoxHelper/BoxProvider_complete.cs:100 | for one token, two file ids give the same download URL if and only if they are equal |
| BoxProvider.TagQueryAppend | BoxHelper/BoxProvider_complete.cs:459-462 | the tag query of a concatenated tag list is the concatenation of the queries: the URL lists the tags in array order |
| BoxProvider.TagQuerySingle | BoxHelper/BoxProvider_complete.cs:461 | one tag contributes exactly one `&tags[]=` segment |
| BoxProvider.AppendTags | BoxHelper/BoxProvider_complete.cs:457-462 | the StringBuilder loop leaves the prefix followed by the tag query of all the tags |
| BoxProvider.Provider.SetTags | BoxHelper/BoxProvider_complete.cs:455-469 | the URL is the formatted add_to_tag prefix followed by `&tags[]=`+tag for each tag in order, exactly the prefix with no tags; a transport failure escapes as WebException |
| BoxProvider.Provider.SetFileTags | BoxHelper/BoxProvider_complete.cs:272-275 | SetTags with target `file` |
| BoxProvider.Provider.SetFolderTags | BoxHelper/BoxProvider_complete.cs:282-285 | SetTags with target `folder` |
| BoxProvider.BytesBeforeEnd | BoxHelper/BoxProvider_complete.cs:506-513 | the downloaded bytes are the reads before the first -1, in read order, each equal to its read; the read right after them is -1 |
| BoxProvider.BytesBeforeEndStops | BoxHelper/BoxProvider_complete.cs:506-513 | on a stream that ends, the first -1 lies inside the reads, so the byte count equals the number of reads that were not -1 before the stop |
| BoxProvider.ReadToEnd | BoxHelper/BoxProvider_complete.cs:504-513 | the do-while ReadByte loop returns exactly BytesBeforeEnd of the reads |
| BoxProvider.Provider.ExecuteGetFileContentV1 | BoxHelper/BoxProvider_complete.cs:498-516 | GETs the download URL built from the token and the file id, and returns exactly the bytes before the first -1 |
| BoxProvider.Provider.GetFileContent | BoxHelper/BoxProvider_complete.cs:250-253 | the same URL and bytes as ExecuteGetFileContentV1 |
| BoxProvider.GetFolderStructure | BoxHelper/BoxProvider_complete.cs:204-216 | returns the SDK's folder if and only if the status is Successful; otherwise ApplicationException |
| BoxProvider.GetFiles | BoxHelper/BoxProvider_complete.cs:224-230 | returns the folder the SDK filled in, whatever status it reported |
| BoxProvider.FolderStatusCheck | BoxHelper/BoxProvider_complete.cs:204-230 | GetFolderStructure fails whenever the status is not Successful, while GetFiles returns the folder whatever the status; the two agree on success |
| BoxProvider.FileName | BoxHelper/BoxProvider_complete.cs:303 | Path.GetFileName is the longest suffix of the path without a directory or volume separator |
| BoxProvider.FirstNamed | BoxHelper/BoxProvider_complete.cs:303 | `Where(f => f.Name == name).FirstOrDefault()`: none exactly when no file has the name, otherwise a file of the list with that name and no earlier file with it |
| BoxProvider.Provider.UploadFile | BoxHelper/BoxProvider_complete.cs:297-314 | tags only when encrypted, the folder was fetched and some file bears the uploaded file's name, and then tags the first such file with exactly `Encrypted`; an unsuccessful folder status escapes as ApplicationException and a failed tag request as WebException, and nothing else escapes; the caller is notified once exactly when it subscribed and nothing escaped |
| BoxProvider.Provider.constructor | BoxHelper/BoxProvider_complete.cs:122-126 | starts with the api key, no ticket, no token, no subscriber |
| BoxProvider.Provider.WithToken | BoxHelper/BoxProvider_complete.cs:128-133 | starts with the api key and the remembered token |
| BoxProvider.Provider.GetTicketCompleted | BoxHelper/BoxProvider.cs:326-337 | on success the ticket is recorded and the http login page for it is shown; on failure nothing changes |
| BoxProvider.Provider.GetTicketCompletedEx | BoxHelper/BoxProvider.cs:339-357 | the ticket is set to the response's only on success and otherwise unchanged; GetTicketSucceeded or GetTicketFailed is raised only when subscribed |
| BoxProvider.Provider.GetAuthenticationTokenCompleted | BoxHelper/BoxProvider.cs:304-324 | the token is updated only when the status is Successful and a LoginSuccessful handler is subscribed; LoginFailed is raised on failure only when subscribed |
| LoginDialog.LoginFormEx.constructor | BoxHelper/LoginFormEx.cs:14-26 | starts with firstLogin set, not authenticated, an empty token and the dialog open |
| LoginDialog.LoginFormEx.EnableLoginButton | BoxHelper/LoginFormEx.cs:69-72 | the button is enabled if and only if both boxes are non-empty and not authenticated |
| LoginDialog.LoginFormEx.UsernameChanged | BoxHelper/LoginFormEx.cs:59-62 | editing the user name re-evaluates the button rule |
| LoginDialog.LoginFormEx.PasswordChanged | BoxHelper/LoginFormEx.cs:64-67 | editing the password re-evaluates the button rule |
| LoginDialog.LoginFormEx.LoginClick | BoxHelper/LoginFormEx.cs:33-51 | the first click runs AuthenticateUser and clears firstLogin, which never becomes true again; later clicks run AuthenticateUserEx with the token the previous attempt left; the button rule holds after each click that returned; only a successful first attempt sets OK and closes; an escaping exception leaves authenticated and the button as they were |
| LoginDialog.LoginFormEx.Conclude | BoxHelper/LoginFormEx.cs:38-49 | the form holds the attempt's token, records its return value or lets its exception escape, re-evaluates the button, and closes with OK only after a successful first attempt |
| LoginDialog.LoginFormEx.CloseClick | BoxHelper/LoginFormEx.cs:53-57 | always sets the dialog result to Cancel and closes |

## Left out

- The HTTP transport: WebRequest, WebClient.UploadValues, response streams, proxies and ASCII decoding. Replies are inputs (`Reply`), and a failed request is `WebFailure`.
- The BoxSync SDK calls (GetTicket, GetAuthenticationToken, GetFolderStructure, AddFile). They are a foreign library whose behaviour is not visible; their statuses and results are inputs.
- StartAuthentication, FinishAuthentication and their variants only start SDK calls with a callback. ShowBrowserInDialog and the LoginCancelled event are UI. GetTicketCompleted's browser dialog is reduced to the URL it would show.
- The background threads (GetFileContentAsync, GetFileContentThreadMethod) and GetFilesAsync: concurrency and SDK callbacks.
- Trace logging. The culture-sensitive comparison of String.IndexOf(string) is also left out: search is ordinal.
- Path.GetFileName's exception on invalid path characters. `FileName` uses the Windows separators.
- The text of the ApplicationException message.
- Long ids are unbounded integers, and their decimal rendering is modelled without culture.
- ExecuteGetFileContentV1: a download whose GET fails, and a stream that never ends, are not modelled; the reads are a finite sequence ending in -1.
- The designer's initial Enabled state of the Login button is a constructor input. Close is reduced to a `closed` flag. The RememberToken check box is not modelled.
- LoginClick: calls AuthenticateUser before clearing `firstLogin`, while the source clears it first. The attempt reads none of the form's fields, so the final state is the same.
- BoxFormLoginDemo/MainForm.cs, BoxHelper/BrowserLauncher.cs and BoxHelper/LoginForm.cs are not part of this model: UI, registry lookup and process launch.
