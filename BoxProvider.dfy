/** The state and the non-login operations of BoxProvider: the SDK completion callbacks that
    record the ticket and the authentication token, folder retrieval with and without a status
    check, the tag-update URL, the byte-by-byte download loop and the tagging of encrypted uploads.

    Replies of the BoxSync SDK (statuses, tickets, folder trees) and of the REST transport are
    inputs; the requests the provider would issue are outputs. */
module BoxProvider {
  import opened Outcomes
  import opened Transport
  import BoxLogin

  newtype byte = x: int | 0 <= x < 256

  /** Status of an SDK call; only `Successful` is ever distinguished. */
  datatype Status = Successful | Unsuccessful(name: string)

  datatype User = User(login: string)
  datatype TicketResponse = TicketResponse(status: Status, ticket: string)
  datatype TokenResponse = TokenResponse(status: Status, authenticationToken: string, authenticatedUser: User)
  datatype FileEntry = FileEntry(id: int, name: string)
  datatype Folder = Folder(files: seq<FileEntry>)

  /** An event the provider raises to its subscribers. */
  datatype Notification =
    | TicketSucceeded(ticket: string)
    | TicketFailed
    | LoginSucceeded(user: User)
    | LoginFailed

  const TargetFolder: string := "folder"
  const TargetFile: string := "file"
  const EncryptedTag: string := "Encrypted"

  /** How string.Format renders a string argument: a null reference prints as nothing. */
  function Formatted(s: Option<string>): string {
    if s.Some? then s.value else ""
  }

  /** Decimal digits of a natural number, most significant first, with no leading zero. */
  function Digits(n: nat): (r: string)
    ensures |r| >= 1 && forall i :: 0 <= i < |r| ==> '0' <= r[i] <= '9'
    ensures r[0] == '0' <==> n == 0
  {
    if n < 10 then [('0' as int + n) as char]
    else Digits(n / 10) + [('0' as int + n % 10) as char]
  }

  /** The number a string of decimal digits denotes. */
  function DecimalValue(s: string): nat
    requires forall i :: 0 <= i < |s| ==> '0' <= s[i] <= '9'
  {
    if s == [] then 0 else 10 * DecimalValue(s[..|s| - 1]) + (s[|s| - 1] as int - '0' as int)
  }

  /** The digits denote the number they were written from. */
  lemma {:induction false} DigitsDenote(n: nat)
    ensures DecimalValue(Digits(n)) == n
  {
    if n >= 10 {
      var d := Digits(n);
      assert d[..|d| - 1] == Digits(n / 10);
      DigitsDenote(n / 10);
    }
  }

  /** Int64.ToString(): optional minus sign, then the decimal digits. */
  function DecimalText(n: int): (r: string)
    ensures |r| >= 1 && (r[0] == '-' <==> n < 0)
    ensures forall i :: (if n < 0 then 1 else 0) <= i < |r| ==> '0' <= r[i] <= '9'
  {
    if n < 0 then "-" + Digits(-n) else Digits(n)
  }

  /** Distinct ids render as distinct texts. */
  lemma DecimalTextInjective(a: int, b: int)
    ensures DecimalText(a) == DecimalText(b) <==> a == b
  {
    if DecimalText(a) == DecimalText(b) {
      var k := if a < 0 then 1 else 0;
      assert DecimalText(a)[k..] == Digits(if a < 0 then -a else a);
      assert DecimalText(b)[k..] == Digits(if b < 0 then -b else b);
      DigitsDenote(if a < 0 then -a else a);
      DigitsDenote(if b < 0 then -b else b);
    }
  }

  /** The last `|t|` characters of `s` are `t`. */
  predicate EndsWith(s: string, t: string) {
    |t| <= |s| && s[|s| - |t|..] == t
  }

  /** Texts that agree up to a common prefix are equal. */
  lemma CancelPrefix(p: string, x: string, y: string)
    requires p + x == p + y
    ensures x == y
  {
    assert x == (p + x)[|p|..];
    assert y == (p + y)[|p|..];
  }

  const UpdateTagsEndpoint: string := "https://www.box.net/api/1.0/rest?action=add_to_tag&api_key="

  /** APIV1_UPDATE_TAGS formatted with the api key, the token, the target kind and the id. */
  function UpdateTagsUrl(apiKey: string, authToken: Option<string>, target: string, id: int): (r: string)
    ensures |UpdateTagsEndpoint| <= |r| && r[..|UpdateTagsEndpoint|] == UpdateTagsEndpoint
    ensures EndsWith(r, DecimalText(id))
  {
    var query := apiKey + "&auth_token=" + Formatted(authToken) + "&target=" + target + "&target_id=";
    UpdateTagsEndpoint + query + DecimalText(id)
  }

  /** For one key, token and target kind, each id has its own tag-update URL. */
  lemma UpdateTagsUrlInjective(apiKey: string, authToken: Option<string>, target: string, a: int, b: int)
    ensures UpdateTagsUrl(apiKey, authToken, target, a) == UpdateTagsUrl(apiKey, authToken, target, b) <==> a == b
  {
    var p := UpdateTagsEndpoint + (apiKey + "&auth_token=" + Formatted(authToken) + "&target=" + target + "&target_id=");
    if UpdateTagsUrl(apiKey, authToken, target, a) == UpdateTagsUrl(apiKey, authToken, target, b) {
      assert UpdateTagsUrl(apiKey, authToken, target, a) == p + DecimalText(a);
      assert UpdateTagsUrl(apiKey, authToken, target, b) == p + DecimalText(b);
      CancelPrefix(p, DecimalText(a), DecimalText(b));
      DecimalTextInjective(a, b);
    }
  }

  const DownloadEndpoint: string := "https://www.box.net/api/1.0/download/"

  /** APIV1_DOWNLOAD_FILE formatted with the token and the file id. */
  function DownloadUrl(authToken: Option<string>, fileID: int): (r: string)
    ensures |DownloadEndpoint| <= |r| && r[..|DownloadEndpoint|] == DownloadEndpoint
    ensures EndsWith(r, DecimalText(fileID))
  {
    var path := Formatted(authToken) + "/";
    DownloadEndpoint + path + DecimalText(fileID)
  }

  /** For one token, each file id has its own download URL. */
  lemma DownloadUrlInjective(authToken: Option<string>, a: int, b: int)
    ensures DownloadUrl(authToken, a) == DownloadUrl(authToken, b) <==> a == b
  {
    var p := DownloadEndpoint + (Formatted(authToken) + "/");
    if DownloadUrl(authToken, a) == DownloadUrl(authToken, b) {
      assert DownloadUrl(authToken, a) == p + DecimalText(a);
      assert DownloadUrl(authToken, b) == p + DecimalText(b);
      CancelPrefix(p, DecimalText(a), DecimalText(b));
      DecimalTextInjective(a, b);
    }
  }

  /** The `&tags[]=` query segments of a tag list, one per tag, in order. */
  function TagQuery(tags: seq<string>): string {
    if tags == [] then "" else TagQuery(tags[..|tags| - 1]) + "&tags[]=" + tags[|tags| - 1]
  }

  /** The query of a concatenation is the concatenation of the queries: the URL lists the tags
      exactly in array order. */
  lemma {:induction false} TagQueryAppend(a: seq<string>, b: seq<string>)
    ensures TagQuery(a + b) == TagQuery(a) + TagQuery(b)
    decreases |b|
  {
    if b == [] {
      assert a + b == a;
    } else {
      var b' := b[..|b| - 1];
      assert (a + b)[..|a + b| - 1] == a + b';
      TagQueryAppend(a, b');
    }
  }

  /** One tag contributes exactly one `&tags[]=` segment. */
  lemma TagQuerySingle(tag: string)
    ensures TagQuery([tag]) == "&tags[]=" + tag
  {
  }

  predicate IsSeparator(c: char) {
    c == '\\' || c == '/' || c == ':'
  }

  /** Path.GetFileName: the text after the last directory or volume separator. */
  function FileName(path: string): (r: string)
    ensures |r| <= |path| && r == path[|path| - |r|..]
    ensures forall i :: 0 <= i < |r| ==> !IsSeparator(r[i])
    ensures |r| < |path| ==> IsSeparator(path[|path| - |r| - 1])
  {
    if path == [] then []
    else if IsSeparator(path[|path| - 1]) then []
    else FileName(path[..|path| - 1]) + [path[|path| - 1]]
  }

  /** Index of the first file called `name`, or -1. */
  function IndexOfName(files: seq<FileEntry>, name: string, from: nat): (k: int)
    requires from <= |files|
    ensures k == -1 || (from <= k < |files| && files[k].name == name)
    ensures k == -1 ==> forall j :: from <= j < |files| ==> files[j].name != name
    ensures k != -1 ==> forall j :: from <= j < k ==> files[j].name != name
    decreases |files| - from
  {
    if from == |files| then -1
    else if files[from].name == name then from
    else IndexOfName(files, name, from + 1)
  }

  /** `files.Where(f => f.Name == name).FirstOrDefault()`: the first file called `name`, if any. */
  function FirstNamed(files: seq<FileEntry>, name: string): (r: Option<FileEntry>)
    ensures r.None? <==> forall j :: 0 <= j < |files| ==> files[j].name != name
    ensures r.Some? ==> exists k :: 0 <= k < |files| && files[k] == r.value && r.value.name == name &&
                                    forall j :: 0 <= j < k ==> files[j].name != name
  {
    var k := IndexOfName(files, name, 0);
    if k == -1 then None else Some(files[k])
  }

  /** GetFolderStructure: the SDK's folder, or an ApplicationException when the status is not
      Successful. */
  function GetFolderStructure(folderID: int, status: Status, folder: Folder): (r: Result<Folder>)
    ensures r.Ok? <==> status == Successful
    ensures r.Ok? ==> r.value == folder
    ensures r.Err? ==> r.fault == ApplicationError
  {
    if status != Successful then Err(ApplicationError) else Ok(folder)
  }

  /** GetFiles: the SDK's folder whatever the status. */
  function GetFiles(folderID: int, status: Status, folder: Folder): (r: Folder)
    ensures r == folder
  {
    folder
  }

  /** GetFiles ignores the status that GetFolderStructure checks: the two agree exactly on a
      successful call, and only GetFiles answers after a failed one. */
  lemma FolderStatusCheck(folderID: int, status: Status, folder: Folder)
    ensures GetFolderStructure(folderID, status, folder).Ok? ==>
              GetFolderStructure(folderID, status, folder).value == GetFiles(folderID, status, folder)
    ensures status != Successful ==>
              GetFolderStructure(folderID, status, folder).Err? &&
              GetFiles(folderID, status, folder) == GetFiles(folderID, Successful, folder)
  {
  }

  /** ReadByte yields a byte or -1, and a response stream ends. */
  ghost predicate WellFormedStream(results: seq<int>) {
    (forall k :: 0 <= k < |results| ==> -1 <= results[k] < 256) && -1 in results
  }

  /** The bytes a stream yields before its first -1. */
  function BytesBeforeEnd(results: seq<int>): (r: seq<byte>)
    requires forall k :: 0 <= k < |results| ==> -1 <= results[k] < 256
    ensures |r| <= |results|
    ensures forall j :: 0 <= j < |r| ==> results[j] != -1 && r[j] as int == results[j]
    ensures |r| < |results| ==> results[|r|] == -1
  {
    if results == [] || results[0] == -1 then []
    else [results[0] as byte] + BytesBeforeEnd(results[1..])
  }

  /** A well-formed stream ends: its first -1 lies inside it, right after the bytes it yields. */
  lemma BytesBeforeEndStops(results: seq<int>)
    requires WellFormedStream(results)
    ensures |BytesBeforeEnd(results)| < |results|
  {
  }

  /** The do-while loop of ExecuteGetFileContentV1: call ReadByte, keep every value that is not
      -1 as a byte, stop at the first -1. */
  method ReadToEnd(results: seq<int>) returns (data: seq<byte>)
    requires WellFormedStream(results)
    ensures data == BytesBeforeEnd(results)
  {
    BytesBeforeEndStops(results);
    ghost var bytes := BytesBeforeEnd(results);
    data := [];
    var i := 0;
    while true
      invariant 0 <= i <= |bytes| && |data| == i
      invariant forall j :: 0 <= j < i ==> data[j] == bytes[j]
      decreases |bytes| - i
    {
      var bData := results[i];
      if bData == -1 {
        break;
      }
      data := data + [bData as byte];
      i := i + 1;
    }
  }

  /** SetTags' loop over the tags: the StringBuilder starts as `prefix` and every tag appends
      `&tags[]=` and the tag. */
  method AppendTags(prefix: string, tags: seq<string>) returns (url: string)
    ensures url == prefix + TagQuery(tags)
  {
    url := prefix;
    for i := 0 to |tags|
      invariant url == prefix + TagQuery(tags[..i])
    {
      assert tags[..i + 1][..i] == tags[..i];
      assert TagQuery(tags[..i + 1]) == TagQuery(tags[..i]) + "&tags[]=" + tags[i];
      url := url + "&tags[]=" + tags[i];
      assert url == prefix + TagQuery(tags[..i + 1]);
    }
    assert tags[..|tags|] == tags;
  }

  class Provider {
    const apiKey: string
    var ticket: Option<string>
    var authenticationToken: Option<string>
    /** Whether a handler is subscribed to LoginSuccessful, LoginFailed, GetTicketSucceeded and
        GetTicketFailed (an event is null until someone subscribes). */
    var onLoginSuccessful: bool
    var onLoginFailed: bool
    var onTicketSucceeded: bool
    var onTicketFailed: bool

    /** BoxProvider(applicationApiKey): no ticket, no token, no subscriber. */
    constructor (applicationApiKey: string)
      ensures apiKey == applicationApiKey && ticket == None && authenticationToken == None
      ensures !onLoginSuccessful && !onLoginFailed && !onTicketSucceeded && !onTicketFailed
    {
      apiKey := applicationApiKey;
      ticket := None;
      authenticationToken := None;
      onLoginSuccessful, onLoginFailed, onTicketSucceeded, onTicketFailed := false, false, false, false;
    }

    /** BoxProvider(applicationApiKey, authenticationToken): reconnects with a remembered token. */
    constructor WithToken(applicationApiKey: string, token: string)
      ensures apiKey == applicationApiKey && ticket == None && authenticationToken == Some(token)
      ensures !onLoginSuccessful && !onLoginFailed && !onTicketSucceeded && !onTicketFailed
    {
      apiKey := applicationApiKey;
      ticket := None;
      authenticationToken := Some(token);
      onLoginSuccessful, onLoginFailed, onTicketSucceeded, onTicketFailed := false, false, false, false;
    }

    /** GetTicketCompleted: on success record the ticket and yield the login page to show in the
        browser dialog; on failure do nothing. */
    method GetTicketCompleted(response: TicketResponse) returns (browserUrl: Option<string>)
      modifies this`ticket
      ensures response.status == Successful ==>
                ticket == Some(response.ticket) && browserUrl == Some(BoxLogin.AuthPageUrl(response.ticket))
      ensures response.status != Successful ==> ticket == old(ticket) && browserUrl == None
    {
      browserUrl := None;
      if response.status == Successful {
        ticket := Some(response.ticket);
        browserUrl := Some(BoxLogin.AuthPageUrl(response.ticket));
      }
    }

    /** GetTicketCompletedEx: the ticket is recorded only on success; the matching event is
        raised when someone subscribed to it. */
    method GetTicketCompletedEx(response: TicketResponse) returns (raised: Option<Notification>)
      modifies this`ticket
      ensures ticket == if response.status == Successful then Some(response.ticket) else old(ticket)
      ensures response.status == Successful ==>
                raised == if onTicketSucceeded then Some(TicketSucceeded(response.ticket)) else None
      ensures response.status != Successful ==>
                raised == if onTicketFailed then Some(TicketFailed) else None
    {
      raised := None;
      if response.status == Successful {
        ticket := Some(response.ticket);
        if onTicketSucceeded {
          raised := Some(TicketSucceeded(response.ticket));
        }
      } else {
        if onTicketFailed {
          raised := Some(TicketFailed);
        }
      }
    }

    /** GetAuthenticationTokenCompleted: the token is recorded only when the call succeeded AND
        a LoginSuccessful handler is subscribed; a failure leaves it and may raise LoginFailed. */
    method GetAuthenticationTokenCompleted(response: TokenResponse) returns (raised: Option<Notification>)
      modifies this`authenticationToken
      ensures authenticationToken ==
                if response.status == Successful && onLoginSuccessful then Some(response.authenticationToken)
                else old(authenticationToken)
      ensures response.status == Successful ==>
                raised == if onLoginSuccessful then Some(LoginSucceeded(response.authenticatedUser)) else None
      ensures response.status != Successful ==>
                raised == if onLoginFailed then Some(LoginFailed) else None
    {
      raised := None;
      if response.status == Successful {
        if onLoginSuccessful {
          authenticationToken := Some(response.authenticationToken);
          raised := Some(LoginSucceeded(response.authenticatedUser));
        }
      } else {
        if onLoginFailed {
          raised := Some(LoginFailed);
        }
      }
    }

    /** SetTags: build the add_to_tag URL, one `&tags[]=` segment per tag in array order, and
        POST it; a transport failure escapes. */
    method SetTags(id: int, target: string, tags: seq<string>, reply: Reply)
      returns (url: string, escaped: Option<Fault>)
      ensures url == UpdateTagsUrl(apiKey, authenticationToken, target, id) + TagQuery(tags)
      ensures tags == [] ==> url == UpdateTagsUrl(apiKey, authenticationToken, target, id)
      ensures escaped == if reply.WebFailure? then Some(WebError) else None
    {
      url := AppendTags(UpdateTagsUrl(apiKey, authenticationToken, target, id), tags);
      escaped := if reply.WebFailure? then Some(WebError) else None;
    }

    /** SetFileTags: SetTags on a file. */
    method SetFileTags(fileID: int, tags: seq<string>, reply: Reply) returns (url: string, escaped: Option<Fault>)
      ensures url == UpdateTagsUrl(apiKey, authenticationToken, TargetFile, fileID) + TagQuery(tags)
      ensures escaped == if reply.WebFailure? then Some(WebError) else None
    {
      url, escaped := SetTags(fileID, TargetFile, tags, reply);
    }

    /** SetFolderTags: SetTags on a folder. */
    method SetFolderTags(folderID: int, tags: seq<string>, reply: Reply) returns (url: string, escaped: Option<Fault>)
      ensures url == UpdateTagsUrl(apiKey, authenticationToken, TargetFolder, folderID) + TagQuery(tags)
      ensures escaped == if reply.WebFailure? then Some(WebError) else None
    {
      url, escaped := SetTags(folderID, TargetFolder, tags, reply);
    }

    /** ExecuteGetFileContentV1: GET the download URL, then read the response stream to its end;
        `results` are the successive values the stream's ReadByte returns. */
    method ExecuteGetFileContentV1(fileID: int, results: seq<int>) returns (url: string, data: seq<byte>)
      requires WellFormedStream(results)
      ensures url == DownloadUrl(authenticationToken, fileID)
      ensures data == BytesBeforeEnd(results)
    {
      url := DownloadUrl(authenticationToken, fileID);
      data := ReadToEnd(results);
    }

    /** GetFileContent: the synchronous download, ExecuteGetFileContentV1 itself. */
    method GetFileContent(fileID: int, results: seq<int>) returns (url: string, data: seq<byte>)
      requires WellFormedStream(results)
      ensures url == DownloadUrl(authenticationToken, fileID)
      ensures data == BytesBeforeEnd(results)
    {
      url, data := ExecuteGetFileContentV1(fileID, results);
    }

    /** UploadFile's completion delegate: for an encrypted upload, fetch the folder (an
        unsuccessful status escapes) and tag the first file whose name is the uploaded file's
        name; then notify the caller, unless an exception escaped first. */
    method UploadFile(filePath: string, folderID: int, encrypted: bool, onFinished: bool,
                      treeStatus: Status, folder: Folder, tagReply: Reply)
      returns (tagUrl: Option<string>, finished: bool, escaped: Option<Fault>)
      ensures tagUrl.Some? <==>
                encrypted && treeStatus == Successful && FirstNamed(folder.files, FileName(filePath)).Some?
      ensures tagUrl.Some? ==>
                tagUrl.value == UpdateTagsUrl(apiKey, authenticationToken, TargetFile,
                                              FirstNamed(folder.files, FileName(filePath)).value.id)
                                + TagQuery([EncryptedTag])
      ensures escaped == if encrypted && treeStatus != Successful then Some(ApplicationError)
                         else if tagUrl.Some? && tagReply.WebFailure? then Some(WebError)
                         else None
      ensures finished <==> onFinished && escaped.None?
    {
      tagUrl, finished, escaped := None, false, None;
      if encrypted {
        var tree := GetFolderStructure(folderID, treeStatus, folder);
        if tree.Err? {
          escaped := Some(tree.fault);
          return;
        }
        var file := FirstNamed(tree.value.files, FileName(filePath));
        if file.Some? {
          var url, fault := SetFileTags(file.value.id, [EncryptedTag], tagReply);
          tagUrl := Some(url);
          if fault.Some? {
            escaped := fault;
            return;
          }
        }
      }
      if onFinished {
        finished := true;
      }
    }
  }
}
