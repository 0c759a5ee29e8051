/** src/components/server/CreateServerModal.tsx: the form that creates a
    server. The image picker refuses files over 5 MiB; submitting checks the
    name, then runs the auth check, the icon upload, the `create_server` call
    and the icon update in order, stopping at the first failure, and clears
    the form whatever the outcome. */
module CreateServerModal {
  import opened Common
  import opened JsText

  const MaxImageBytes: nat := 5 * 1024 * 1024

  /** `handleImageSelect`'s gate: refused only when strictly larger than
      5 MiB. */
  predicate ImageAccepted(f: File) {
    !(f.size > MaxImageBytes)
  }

  /** The largest accepted image is exactly 5 MiB. */
  lemma ImageLimitIsInclusive()
    ensures ImageAccepted(File("icon.png", 5242880))
    ensures !ImageAccepted(File("icon.png", 5242881))
  {
  }

  /** `${uuid}.${fileExt}`, the storage path of an uploaded icon. */
  function UploadPath(uuid: string, fileName: string): string {
    uuid + "." + Extension(fileName)
  }

  /** A name without '.' is used whole after the UUID and its '.'. */
  lemma UploadPathWithoutDot(uuid: string, fileName: string)
    requires '.' !in fileName
    ensures UploadPath(uuid, fileName) == uuid + "." + fileName
  {
    ExtensionWithoutDot(fileName);
  }

  /** The outcome of `supabase.auth.getUser()`. */
  datatype Auth = AuthFailed | NoUser | SignedIn(userId: string)

  /** What the backend answers at each step: the auth check, the fresh UUID
      for the path, the upload, the public URL of the upload, the
      `create_server` call (the new id, or `None` on error) and the icon
      update; and the message of the error a failing backend call throws (or
      "Failed to create server" when what it throws is not an `Error`). */
  datatype Backend = Backend(
    auth: Auth,
    uuid: string,
    uploadOk: bool,
    publicUrl: string,
    createdId: Option<string>,
    iconUpdateOk: bool,
    errorText: string)

  /** The backend calls the handler issues. */
  datatype Call =
    | GetUser
    | Upload(path: string)
    | CreateServer(name: string, userId: string)
    | SetIconUrl(serverId: string, url: string)

  /** The order of the steps. */
  function Rank(c: Call): nat {
    match c
    case GetUser => 0
    case Upload(_) => 1
    case CreateServer(_, _) => 2
    case SetIconUrl(_, _) => 3
  }

  datatype Step = AuthStep | UploadStep | CreateStep | IconStep

  function StepRank(s: Step): nat {
    match s
    case AuthStep => 0
    case UploadStep => 1
    case CreateStep => 2
    case IconStep => 3
  }

  datatype Outcome = Created | FailedAt(step: Step)

  datatype Run = Run(calls: seq<Call>, outcome: Outcome)

  /** The toast the `catch` block or the success path shows: a missing user
      is reported with the message of the error the handler throws itself. */
  function RunNotice(r: Run, b: Backend): Notice {
    match r.outcome
    case Created => SuccessNotice("Server created successfully!")
    case FailedAt(step) =>
      if step == AuthStep && b.auth == NoUser then ErrorNotice("Not authenticated")
      else ErrorNotice(b.errorText)
  }

  /** Every step that the auth check lets through succeeds. */
  predicate AllSucceed(image: Option<File>, b: Backend) {
    && b.auth.SignedIn?
    && (image.Some? ==> b.uploadOk)
    && b.createdId.Some?
    && (image.Some? && b.publicUrl != "" ==> b.iconUpdateOk)
  }

  /** The `try` block of `handleSubmit` for a name that passed the gate. The
      icon update runs only when an image was uploaded and its URL is not
      empty (`if (iconUrl)`). */
  function Attempt(name: string, image: Option<File>, b: Backend): Run
  {
    if !b.auth.SignedIn? then Run([GetUser], FailedAt(AuthStep))
    else
      var upload := if image.Some? then [Upload(UploadPath(b.uuid, image.value.name))] else [];
      if image.Some? && !b.uploadOk then Run([GetUser] + upload, FailedAt(UploadStep))
      else
        var iconUrl := if image.Some? then Some(b.publicUrl) else None;
        var created := [GetUser] + upload + [CreateServer(name, b.auth.userId)];
        if b.createdId.None? then Run(created, FailedAt(CreateStep))
        else if iconUrl.Some? && iconUrl.value != "" then
          var all := created + [SetIconUrl(b.createdId.value, iconUrl.value)];
          if b.iconUpdateOk then Run(all, Created) else Run(all, FailedAt(IconStep))
        else Run(created, Created)
  }

  predicate IssuesUpload(r: Run) {
    exists i :: 0 <= i < |r.calls| && r.calls[i].Upload?
  }

  predicate IssuesCreate(r: Run) {
    exists i :: 0 <= i < |r.calls| && r.calls[i].CreateServer?
  }

  predicate IssuesIconUpdate(r: Run) {
    exists i :: 0 <= i < |r.calls| && r.calls[i].SetIconUrl?
  }

  /** The steps run in order, starting with the auth check, and a failing
      step is the last call issued: nothing after it runs. */
  lemma AttemptOrder(name: string, image: Option<File>, b: Backend)
    ensures var r := Attempt(name, image, b);
      && r.calls != [] && r.calls[0] == GetUser
      && (forall i, j :: 0 <= i < j < |r.calls| ==> Rank(r.calls[i]) < Rank(r.calls[j]))
      && (r.outcome.FailedAt? ==> Rank(r.calls[|r.calls| - 1]) == StepRank(r.outcome.step))
  {
  }

  /** The handler ends in success (and calls `onClose`) exactly when every
      step it reaches succeeds. */
  lemma AttemptSucceedsIff(name: string, image: Option<File>, b: Backend)
    ensures Attempt(name, image, b).outcome == Created <==> AllSucceed(image, b)
  {
  }

  /** The success toast shows exactly when every step succeeds; a signed-out
      user is told "Not authenticated". */
  lemma AttemptNotice(name: string, image: Option<File>, b: Backend)
    ensures RunNotice(Attempt(name, image, b), b).SuccessNotice? <==> AllSucceed(image, b)
    ensures b.auth == NoUser ==> RunNotice(Attempt(name, image, b), b) == ErrorNotice("Not authenticated")
  {
    AttemptSucceedsIff(name, image, b);
  }

  /** Which calls are issued: the upload only for a signed-in user with an
      image; `create_server` only when the earlier steps passed; the icon
      update only when an image was uploaded and the server created. */
  lemma AttemptIssues(name: string, image: Option<File>, b: Backend)
    ensures var r := Attempt(name, image, b);
      && (IssuesUpload(r) <==> b.auth.SignedIn? && image.Some?)
      && (IssuesCreate(r) <==> b.auth.SignedIn? && (image.Some? ==> b.uploadOk))
      && (IssuesIconUpdate(r) <==>
            b.auth.SignedIn? && image.Some? && b.uploadOk && b.createdId.Some? && b.publicUrl != "")
  {
    var r := Attempt(name, image, b);
    if b.auth.SignedIn? {
      if image.Some? {
        assert r.calls[1].Upload?;
        if b.uploadOk {
          assert r.calls[2].CreateServer?;
          if b.createdId.Some? && b.publicUrl != "" {
            assert r.calls[3].SetIconUrl?;
          }
        }
      } else {
        assert r.calls[1].CreateServer?;
      }
    }
  }

  /** The arguments of the calls: the typed name and the signed-in user's
      id go to `create_server`, and the upload goes to the path made from
      the UUID and the image's extension. */
  lemma AttemptArguments(name: string, image: Option<File>, b: Backend)
    ensures var r := Attempt(name, image, b);
      && (forall i :: 0 <= i < |r.calls| && r.calls[i].CreateServer? ==>
            b.auth.SignedIn? && r.calls[i] == CreateServer(name, b.auth.userId))
      && (forall i :: 0 <= i < |r.calls| && r.calls[i].Upload? ==>
            image.Some? && r.calls[i] == Upload(UploadPath(b.uuid, image.value.name)))
  {
    if b.auth.SignedIn? {
      var create := CreateServer(name, b.auth.userId);
      if image.Some? {
        var up := Upload(UploadPath(b.uuid, image.value.name));
        var created := [GetUser] + [up] + [create];
        if !b.uploadOk {
          assert Attempt(name, image, b).calls == [GetUser, up];
        } else if b.createdId.None? || b.publicUrl == "" {
          assert Attempt(name, image, b).calls == created;
        } else {
          assert Attempt(name, image, b).calls == created + [SetIconUrl(b.createdId.value, b.publicUrl)];
        }
      } else {
        assert Attempt(name, image, b).calls == [GetUser, create];
      }
    }
  }

  /** The form's state. */
  class CreateServerModal {
    var isLoading: bool
    var serverName: string
    var selectedImage: Option<File>
    var imagePreview: Option<string>

    constructor ()
      ensures !isLoading && serverName == "" && selectedImage == None && imagePreview == None
    {
      isLoading := false;
      serverName := "";
      selectedImage := None;
      imagePreview := None;
    }

    method EditName(text: string)
      modifies this`serverName
      ensures serverName == text
    {
      serverName := text;
    }

    /** `handleImageSelect`: an oversized file is refused and the previous
      selection kept; no file chosen changes nothing. */
    method SelectImage(file: Option<File>) returns (notice: Notice)
      modifies this`selectedImage
      ensures file.None? ==> selectedImage == old(selectedImage) && notice == NoNotice
      ensures file.Some? && !ImageAccepted(file.value) ==>
        selectedImage == old(selectedImage) && notice == ErrorNotice("Image size must be less than 5MB")
      ensures file.Some? && ImageAccepted(file.value) ==> selectedImage == file && notice == NoNotice
    {
      notice := NoNotice;
      if file.None? {
        return;
      }
      if file.value.size > MaxImageBytes {
        notice := ErrorNotice("Image size must be less than 5MB");
        return;
      }
      selectedImage := file;
    }

    /** The file reader finishing: the preview shows the data URL. */
    method PreviewLoaded(dataUrl: string)
      modifies this`imagePreview
      ensures imagePreview == Some(dataUrl)
    {
      imagePreview := Some(dataUrl);
    }

    /** `handleSubmit`, given the backend's answers. Returns the calls issued
      and the outcome (none for a blank name), whether `onClose` was called
      and the toast shown. The body performs the steps one after another as
      the handler does, and `Attempt` is their specification: the ensures
      ties the calls made here to it, so the lemmas about `Attempt` hold of
      every submission. */
    method Submit(b: Backend) returns (run: Option<Run>, closed: bool, notice: Notice)
      modifies this
      ensures Trim(old(serverName)) == "" ==>
        && run == None && !closed && notice == ErrorNotice("Please enter a server name")
        && serverName == old(serverName) && selectedImage == old(selectedImage)
        && imagePreview == old(imagePreview) && isLoading == old(isLoading)
      ensures Trim(old(serverName)) != "" ==>
        && run == Some(Attempt(old(serverName), old(selectedImage), b))
        && closed == (run.value.outcome == Created)
        && notice == RunNotice(run.value, b)
        && !isLoading && serverName == "" && selectedImage == None && imagePreview == None
    {
      if Trim(serverName) == "" {
        return None, false, ErrorNotice("Please enter a server name");
      }
      isLoading := true;
      var calls: seq<Call> := [GetUser];
      var outcome: Outcome := Created;
      if !b.auth.SignedIn? {
        outcome := FailedAt(AuthStep);
      } else {
        var iconUrl: Option<string> := None;
        if selectedImage.Some? {
          calls := calls + [Upload(UploadPath(b.uuid, selectedImage.value.name))];
          if !b.uploadOk {
            outcome := FailedAt(UploadStep);
          } else {
            iconUrl := Some(b.publicUrl);
          }
        }
        if outcome == Created {
          calls := calls + [CreateServer(serverName, b.auth.userId)];
          if b.createdId.None? {
            outcome := FailedAt(CreateStep);
          } else if iconUrl.Some? && iconUrl.value != "" {
            calls := calls + [SetIconUrl(b.createdId.value, iconUrl.value)];
            if !b.iconUpdateOk {
              outcome := FailedAt(IconStep);
            }
          }
        }
      }
      run := Some(Run(calls, outcome));
      assert run.value == Attempt(serverName, selectedImage, b);
      closed := outcome == Created;
      if outcome == Created {
        notice := SuccessNotice("Server created successfully!");
      } else if outcome == FailedAt(AuthStep) && b.auth == NoUser {
        notice := ErrorNotice("Not authenticated");
      } else {
        notice := ErrorNotice(b.errorText);
      }
      // finally
      isLoading := false;
      serverName := "";
      selectedImage := None;
      imagePreview := None;
    }
  }
}
