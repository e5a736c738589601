/** The message composer of the chat client: text entry, file selection
    with its size guard, and what submitting does. */
module MessageInput {
  import opened Wrappers
  import opened Strings
  import opened MessageList

  /** `MAX_FILE_SIZE`: 50 MB, the server's upload limit. */
  const MaxFileSize := 50 * 1024 * 1024

  /** The text input's `maxLength`, in UTF-16 units. */
  const MaxInput := 2000

  const TooLarge := "File too large. Maximum size is 50 MB."

  /** A file picked in the browser. */
  datatype FileInfo = FileInfo(name: string, size: nat, mimeType: string)

  /** The composer's `formatSize` for the selected file. Unlike the message
      list's, it has no blank case: zero bytes read `0 B`. */
  function PreviewSize(bytes: nat): (r: SizeText)
    ensures r == Bytes(bytes) <==> bytes < KiB
    ensures r.Kilobytes? <==> KiB <= bytes < MiB
    ensures r.Megabytes? <==> MiB <= bytes
    ensures r.Kilobytes? || r.Megabytes? ==> r.bytes == bytes
  {
    if bytes < KiB then Bytes(bytes)
    else if bytes < MiB then Kilobytes(bytes)
    else Megabytes(bytes)
  }

  /** The two size labels agree on every size but zero, which the composer
      shows as `0 B` and the message list leaves blank. */
  lemma SizeLabelsAgree(bytes: nat)
    ensures PreviewSize(bytes) == FormatSize(bytes) <==> bytes != 0
    ensures bytes == 0 ==> SizeLabel(PreviewSize(bytes)) == Some("0 B") && SizeLabel(FormatSize(bytes)) == Some("")
  {
    if bytes == 0 {
      assert NatToString(0) == "0";
      assert NatToString(0) + " B" == "0 B";
    }
  }

  /** The Send button's state: `!(disabled || uploading || (!message.trim() && !selectedFile))`. */
  predicate SendEnabled(disabled: bool, uploading: bool, message: string, selected: Option<FileInfo>) {
    !disabled && !uploading && (!AllSpace(message) || selected.Some?)
  }

  class Composer {
    var message: string
    var selectedFile: Option<FileInfo>
    var uploading: bool
    /** The texts handed to `onSend`, in order. */
    var sent: seq<string>
    /** The files handed to `onFileUpload`, in order. */
    var uploads: seq<FileInfo>
    /** The alerts shown, in order. */
    var alerts: seq<string>

    /** The browser keeps the text within `maxLength`, and no file over
        the limit is ever selected. */
    ghost predicate Valid()
      reads this
    {
      && Utf16Length(message) <= MaxInput
      && (selectedFile.Some? ==> selectedFile.value.size <= MaxFileSize)
    }

    constructor ()
      ensures Valid()
      ensures message == "" && selectedFile.None? && !uploading
      ensures sent == [] && uploads == [] && alerts == []
    {
      message := "";
      selectedFile := None;
      uploading := false;
      sent := [];
      uploads := [];
      alerts := [];
    }

    /** `onChange`: the browser hands over at most `maxLength` units, and
        only while the input is enabled (no file selected, no upload). */
    method Edit(text: string)
      requires Valid() && Utf16Length(text) <= MaxInput
      requires selectedFile.None? && !uploading
      modifies this
      ensures Valid()
      ensures message == text
      ensures selectedFile == old(selectedFile) && uploading == old(uploading)
      ensures sent == old(sent) && uploads == old(uploads) && alerts == old(alerts)
    {
      message := text;
    }

    /** `handleSubmit` up to its first `await`. A selected file is handed
        to the upload and the text is left alone; otherwise text that is
        not blank is sent trimmed and the input cleared. */
    method Submit(disabled: bool)
      requires Valid()
      modifies this
      ensures Valid()
      ensures disabled ==>
        message == old(message) && selectedFile == old(selectedFile) && uploading == old(uploading)
        && sent == old(sent) && uploads == old(uploads)
      ensures !disabled && old(selectedFile).Some? ==>
        uploading && uploads == old(uploads) + [old(selectedFile).value]
        && sent == old(sent) && message == old(message) && selectedFile == old(selectedFile)
      ensures !disabled && old(selectedFile).None? ==>
        uploads == old(uploads) && uploading == old(uploading) && selectedFile.None?
        && (AllSpace(old(message)) ==> sent == old(sent) && message == old(message))
        && (!AllSpace(old(message)) ==> sent == old(sent) + [Trim(old(message))] && message == "")
      ensures old(SendEnabled(disabled, uploading, message, selectedFile)) ==>
        |sent| + |uploads| == old(|sent| + |uploads|) + 1
      ensures alerts == old(alerts)
    {
      if disabled {
        return;
      }
      if selectedFile.Some? {
        uploading := true;
        uploads := uploads + [selectedFile.value];
        return;
      }
      if AllSpace(message) {
        return;
      }
      sent := sent + [Trim(message)];
      message := "";
    }

    /** The end of an upload started by `Submit`: the file is cleared only
        when the upload succeeded; `uploading` is reset either way. */
    method UploadSettled(ok: bool)
      requires Valid()
      modifies this
      ensures Valid()
      ensures !uploading
      ensures selectedFile == (if ok then None else old(selectedFile))
      ensures message == old(message) && sent == old(sent) && uploads == old(uploads) && alerts == old(alerts)
    {
      if ok {
        ClearFile();
      }
      uploading := false;
    }

    /** `clearFile`. */
    method ClearFile()
      requires Valid()
      modifies this
      ensures Valid()
      ensures selectedFile.None?
      ensures message == old(message) && uploading == old(uploading)
      ensures sent == old(sent) && uploads == old(uploads) && alerts == old(alerts)
    {
      selectedFile := None;
    }

    /** `handleKeyDown`: Enter without Shift submits, but only while no file
        is selected; any other key changes nothing here. */
    method KeyDown(key: string, shift: bool, disabled: bool)
      requires Valid()
      modifies this
      ensures Valid()
      ensures uploads == old(uploads) && selectedFile == old(selectedFile)
      ensures uploading == old(uploading) && alerts == old(alerts)
      ensures !(key == "Enter" && !shift && old(selectedFile).None?) ==>
        message == old(message) && sent == old(sent)
      ensures key == "Enter" && !shift && old(selectedFile).None? && !disabled && !AllSpace(old(message)) ==>
        sent == old(sent) + [Trim(old(message))] && message == ""
      ensures key == "Enter" && !shift && (disabled || AllSpace(old(message))) ==>
        sent == old(sent) && message == old(message)
    {
      if key == "Enter" && !shift && selectedFile.None? {
        Submit(disabled);
      }
    }

    /** `handleFileSelect`: nothing picked changes nothing; a file over
        the limit raises the alert and keeps the selection; any other file
        becomes the selection. */
    method FileSelect(file: Option<FileInfo>)
      requires Valid()
      modifies this
      ensures Valid()
      ensures file.None? ==> selectedFile == old(selectedFile) && alerts == old(alerts)
      ensures file.Some? && file.value.size > MaxFileSize ==>
        selectedFile == old(selectedFile) && alerts == old(alerts) + [TooLarge]
      ensures file.Some? && file.value.size <= MaxFileSize ==>
        selectedFile == file && alerts == old(alerts)
      ensures message == old(message) && uploading == old(uploading) && sent == old(sent) && uploads == old(uploads)
    {
      if file.None? {
        return;
      }
      if file.value.size > MaxFileSize {
        alerts := alerts + [TooLarge];
        return;
      }
      selectedFile := file;
    }
  }

  /** Whatever the composer sends is trimmed, not blank, and within the
      stored length limit. */
  lemma SentTextFits(message: string)
    requires Utf16Length(message) <= MaxInput && !AllSpace(message)
    ensures Trimmed(Trim(message)) && Trim(message) != ""
    ensures Utf16Length(Trim(message)) <= MaxInput
  {
    Utf16LengthTrim(message);
  }
}
