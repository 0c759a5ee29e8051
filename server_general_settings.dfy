/** src/components/server/settings/tabs/ServerGeneralSettings.tsx: the
    "General" tab of the settings dialog. It edits the server's name, uploads
    a new icon under a per-server object name, and removes the icon. */
module ServerGeneralSettings {
  import opened Common
  import opened JsText

  /** The Save button's `disabled={name === server.name || name.length < 1}`,
      negated: saving is possible exactly when the edited name is new and
      not empty. There is no trim, so a whitespace-only name can be saved. */
  function SaveEnabled(edited: string, current: string): (enabled: bool)
    ensures enabled <==> edited != current && edited != ""
  {
    !(edited == current || |edited| < 1)
  }

  /** A whitespace-only name passes the Save gate. */
  lemma BlankNameCanBeSaved(current: string)
    requires current != "  "
    ensures SaveEnabled("  ", current)
  {
  }

  /** `${server.id}.${fileExt}`: the icon's object name in storage. */
  function IconFileName(serverId: string, fileName: string): string {
    serverId + "." + Extension(fileName)
  }

  /** Uploads for one server land on the same object, overwritten thanks to
      `upsert`, exactly when the files share an extension. */
  lemma IconNameSharedIffSameExtension(serverId: string, f1: string, f2: string)
    ensures IconFileName(serverId, f1) == IconFileName(serverId, f2) <==> Extension(f1) == Extension(f2)
  {
    var p := serverId + ".";
    assert IconFileName(serverId, f1) == p + Extension(f1);
    assert IconFileName(serverId, f2) == p + Extension(f2);
    if IconFileName(serverId, f1) == IconFileName(serverId, f2) {
      assert (p + Extension(f1))[|p|..] == Extension(f1);
      assert (p + Extension(f2))[|p|..] == Extension(f2);
    }
  }

  /** Different servers never share an icon object, as long as server ids
      hold no '.' (they are UUIDs). */
  lemma IconNamesPerServer(id1: string, id2: string, f1: string, f2: string)
    requires '.' !in id1 && '.' !in id2
    requires IconFileName(id1, f1) == IconFileName(id2, f2)
    ensures id1 == id2
  {
    var n := IconFileName(id1, f1);
    assert n[|id1|] == '.' && n[..|id1|] == id1;
    assert n[|id2|] == '.' && n[..|id2|] == id2;
  }

  /** The backend calls of this tab. `SetIconUrl(id, None)` sets `icon_url`
      to null. */
  datatype Call =
    | UpdateName(serverId: string, name: string)
    | UploadIcon(path: string, upsert: bool)
    | SetIconUrl(serverId: string, url: Option<string>)

  /** The tab's state, with the `server` prop it shows. */
  class ServerGeneralSettings {
    const serverId: string
    var serverName: string
    var iconUrl: Option<string>
    var name: string
    var isUploading: bool
    var uploadPath: Option<string>

    /** An upload is in flight exactly while the flag is set. */
    ghost predicate Valid()
      reads this
    {
      isUploading <==> uploadPath.Some?
    }

    /** The name field starts as the server's current name. */
    constructor (serverId: string, serverName: string, iconUrl: Option<string>)
      ensures Valid()
      ensures this.serverId == serverId && this.serverName == serverName && this.iconUrl == iconUrl
      ensures name == serverName && !isUploading
    {
      this.serverId := serverId;
      this.serverName := serverName;
      this.iconUrl := iconUrl;
      name := serverName;
      isUploading := false;
      uploadPath := None;
    }

    /** A new `server` prop (after an update of the row) does not reset the
      edited name: `useState` reads its argument only once. */
    method ServerChanged(serverName: string, iconUrl: Option<string>)
      modifies this`serverName, this`iconUrl
      ensures this.serverName == serverName && this.iconUrl == iconUrl
    {
      this.serverName := serverName;
      this.iconUrl := iconUrl;
    }

    method EditName(text: string)
      modifies this`name
      ensures name == text
    {
      name := text;
    }

    /** Whether the Save button is enabled. */
    predicate CanSave()
      reads this
    {
      SaveEnabled(name, serverName)
    }

    /** `handleUpdateServer`, given whether the update succeeded. It runs only
      from the Save button, so only when that button is enabled: the name
      sent is never empty and never the current one. One update of the
      name, then an error notice or a success notice, never both. */
    method UpdateServer(updateOk: bool) returns (call: Call, notice: Notice)
      requires CanSave()
      ensures call == UpdateName(serverId, name)
      ensures call.name != "" && call.name != serverName
      ensures updateOk ==> notice == SuccessNotice("Server name updated")
      ensures !updateOk ==> notice == ErrorNotice("Failed to update server name")
    {
      call := UpdateName(serverId, name);
      if !updateOk {
        return call, ErrorNotice("Failed to update server name");
      }
      notice := SuccessNotice("Server name updated");
    }

    /** `handleIconUpload` up to its first `await`: with no file nothing
      happens; otherwise the flag is set and the upload (with `upsert`)
      starts. The input is disabled while an upload runs. */
    method StartIconUpload(file: Option<File>) returns (call: Option<Call>)
      requires Valid() && !isUploading
      modifies this`isUploading, this`uploadPath
      ensures Valid()
      ensures file.None? ==> call == None && !isUploading
      ensures file.Some? ==>
        && call == Some(UploadIcon(IconFileName(serverId, file.value.name), true))
        && isUploading && uploadPath == Some(IconFileName(serverId, file.value.name))
    {
      if file.None? {
        return None;
      }
      isUploading := true;
      var path := IconFileName(serverId, file.value.name);
      uploadPath := Some(path);
      call := Some(UploadIcon(path, true));
    }

    /** The rest of `handleIconUpload`, given the upload's outcome, the public
      URL of the object and the update's outcome: an upload error skips the
      row update; the flag is cleared on every outcome. */
    method FinishIconUpload(uploadOk: bool, publicUrl: string, updateOk: bool) returns (calls: seq<Call>, notice: Notice)
      requires Valid() && isUploading
      modifies this`isUploading, this`uploadPath
      ensures Valid() && !isUploading
      ensures !uploadOk ==> calls == [] && notice == ErrorNotice("Failed to upload server icon")
      ensures uploadOk ==> calls == [SetIconUrl(serverId, Some(publicUrl))]
      ensures uploadOk && updateOk ==> notice == SuccessNotice("Server icon updated")
      ensures uploadOk && !updateOk ==> notice == ErrorNotice("Failed to upload server icon")
    {
      calls := [];
      if !uploadOk {
        notice := ErrorNotice("Failed to upload server icon");
      } else {
        calls := [SetIconUrl(serverId, Some(publicUrl))];
        if updateOk {
          notice := SuccessNotice("Server icon updated");
        } else {
          notice := ErrorNotice("Failed to upload server icon");
        }
      }
      // finally
      isUploading := false;
      uploadPath := None;
    }

    /** `handleRemoveIcon`, given whether the update succeeded: a no-op when
      `icon_url` is null or empty, otherwise one update setting it to null. */
    method RemoveIcon(updateOk: bool) returns (calls: seq<Call>, notice: Notice)
      ensures (iconUrl.None? || iconUrl == Some("")) ==> calls == [] && notice == NoNotice
      ensures iconUrl.Some? && iconUrl != Some("") ==>
        && calls == [SetIconUrl(serverId, None)]
        && notice == if updateOk then SuccessNotice("Server icon removed") else ErrorNotice("Failed to remove server icon")
    {
      if iconUrl.None? || iconUrl.value == "" {
        return [], NoNotice;
      }
      calls := [SetIconUrl(serverId, None)];
      notice := if updateOk then SuccessNotice("Server icon removed") else ErrorNotice("Failed to remove server icon");
    }
  }
}
