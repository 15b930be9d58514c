/** components/FileUploadZone.tsx: screening a batch of dropped or picked
    files, and the drag-state handlers. The `onFilesSelected` callback is
    modelled by what the handlers return: `Some(files)` when it is called
    with `files`, `None` when it is not called. */
module FileUpload {
  import opened Wrappers
  import opened Text
  import opened Seqs
  import opened Helpers

  const DefaultMaxFiles: nat := 20

  /** The batch-level message when more than `maxFiles` files arrive. */
  function TooManyFilesError(maxFiles: nat): string
  {
    "Maximum " + NatToString(maxFiles) + " Dateien erlaubt"
  }

  /** `validateFile` does not throw on any file of the batch. */
  predicate CanScreen(files: seq<FileDesc>, types: seq<string>)
  {
    forall i :: 0 <= i < |files| ==> files[i].mimeType in types || HasSubtypes(types)
  }

  /** The files that pass validation, in their order. */
  function AcceptedFiles(files: seq<FileDesc>, types: seq<string>, maxSizeMb: nat): seq<FileDesc>
  {
    Filter((f: FileDesc) => Acceptable(f, types, maxSizeMb), files)
  }

  /** The files that fail validation, in their order. */
  function RejectedFiles(files: seq<FileDesc>, types: seq<string>, maxSizeMb: nat): seq<FileDesc>
  {
    Filter((f: FileDesc) => !Acceptable(f, types, maxSizeMb), files)
  }

  /** The entry for a file that fails validation: "name: reason". */
  function FileError(name: string, reason: string): string
  {
    name + ": " + reason
  }

  /** The entry `handleFiles` reports for a rejected file. */
  function RejectionOf(f: FileDesc, types: seq<string>, maxSizeMb: nat): string
    requires !Acceptable(f, types, maxSizeMb)
    requires f.mimeType in types || HasSubtypes(types)
  {
    FileError(f.name, ValidateFile(f, types, maxSizeMb).error.value)
  }

  /** One "name: reason" per rejected file, in the order of the batch. */
  function FileErrors(files: seq<FileDesc>, types: seq<string>, maxSizeMb: nat): seq<string>
    requires CanScreen(files, types)
  {
    if |files| == 0 then []
    else
      var last := files[|files| - 1];
      FileErrors(files[..|files| - 1], types, maxSizeMb)
      + (if Acceptable(last, types, maxSizeMb) then [] else [RejectionOf(last, types, maxSizeMb)])
  }

  /** Each rejected file contributes exactly one entry. */
  lemma {:induction false} FileErrorsCount(files: seq<FileDesc>, types: seq<string>, maxSizeMb: nat)
    requires CanScreen(files, types)
    ensures |FileErrors(files, types, maxSizeMb)| == |RejectedFiles(files, types, maxSizeMb)|
  {
    if |files| > 0 {
      var front, last := files[..|files| - 1], files[|files| - 1];
      assert files == front + [last];
      FileErrorsCount(front, types, maxSizeMb);
      FilterSnoc((f: FileDesc) => !Acceptable(f, types, maxSizeMb), front, last);
    }
  }

  /** The errors `handleFiles` reports: the batch-level message first when
      the batch is too large, then one entry per rejected file. */
  function BatchErrors(files: seq<FileDesc>, types: seq<string>, maxSizeMb: nat, maxFiles: nat): seq<string>
    requires CanScreen(files, types)
  {
    (if |files| > maxFiles then [TooManyFilesError(maxFiles)] else [])
    + FileErrors(files, types, maxSizeMb)
  }

  /** The `forEach` of `handleFiles`: every file of the batch is validated,
      also past `maxFiles`; accepted files are collected in order and each
      rejected file adds its error. */
  method ScreenFiles(files: seq<FileDesc>, types: seq<string>, maxSizeMb: nat, maxFiles: nat)
    returns (newErrors: seq<string>, validFiles: seq<FileDesc>)
    requires CanScreen(files, types)
    ensures validFiles == AcceptedFiles(files, types, maxSizeMb)
    ensures newErrors == BatchErrors(files, types, maxSizeMb, maxFiles)
  {
    newErrors := [];
    validFiles := [];
    if |files| > maxFiles {
      newErrors := newErrors + [TooManyFilesError(maxFiles)];
    }
    ghost var head := newErrors;
    for i := 0 to |files|
      invariant CanScreen(files[..i], types)
      invariant validFiles == AcceptedFiles(files[..i], types, maxSizeMb)
      invariant newErrors == head + FileErrors(files[..i], types, maxSizeMb)
    {
      var f := files[i];
      ScreenStep(files, i, types, maxSizeMb, head, newErrors, validFiles);
      var validation := ValidateFile(f, types, maxSizeMb);
      if validation.valid {
        validFiles := validFiles + [f];
      } else {
        // the source guards this with `else if (validation.error)`, which
        // always holds: an invalid result carries its reason
        newErrors := newErrors + [FileError(f.name, validation.error.value)];
      }
    }
    assert files[..|files|] == files;
  }

  /** What screening the file at position `i` does to the collected files
      and errors, stated for the state the loop of `ScreenFiles` holds. */
  lemma ScreenStep(files: seq<FileDesc>, i: nat, types: seq<string>, maxSizeMb: nat,
                   head: seq<string>, errors: seq<string>, accepted: seq<FileDesc>)
    requires CanScreen(files, types) && i < |files|
    requires CanScreen(files[..i], types)
    requires accepted == AcceptedFiles(files[..i], types, maxSizeMb)
    requires errors == head + FileErrors(files[..i], types, maxSizeMb)
    ensures CanScreen(files[..i + 1], types)
    ensures files[i].mimeType in types || HasSubtypes(types)
    ensures Acceptable(files[i], types, maxSizeMb) ==>
              accepted + [files[i]] == AcceptedFiles(files[..i + 1], types, maxSizeMb)
              && errors == head + FileErrors(files[..i + 1], types, maxSizeMb)
    ensures !Acceptable(files[i], types, maxSizeMb) ==>
              accepted == AcceptedFiles(files[..i + 1], types, maxSizeMb)
              && errors + [RejectionOf(files[i], types, maxSizeMb)]
                 == head + FileErrors(files[..i + 1], types, maxSizeMb)
  {
    CanScreenPrefix(files, types, i + 1);
    AcceptedStep(files, i, types, maxSizeMb);
    ErrorsStep(files[..i + 1], types, maxSizeMb);
    assert files[..i + 1][..i] == files[..i];
  }

  /** Every prefix of a batch that can be screened can be screened. */
  lemma CanScreenPrefix(files: seq<FileDesc>, types: seq<string>, n: nat)
    requires CanScreen(files, types) && n <= |files|
    ensures CanScreen(files[..n], types)
  {
    forall k | 0 <= k < n ensures files[..n][k] == files[k] { }
  }

  /** One more file extends the accepted files by itself or by nothing. */
  lemma AcceptedStep(files: seq<FileDesc>, i: nat, types: seq<string>, maxSizeMb: nat)
    requires i < |files|
    ensures AcceptedFiles(files[..i + 1], types, maxSizeMb)
            == AcceptedFiles(files[..i], types, maxSizeMb)
               + (if Acceptable(files[i], types, maxSizeMb) then [files[i]] else [])
  {
    assert files[..i + 1] == files[..i] + [files[i]];
    FilterSnoc((g: FileDesc) => Acceptable(g, types, maxSizeMb), files[..i], files[i]);
  }

  /** The errors of a batch are those of all but its last file, then the
      last file's entry if it is rejected. */
  lemma ErrorsStep(files: seq<FileDesc>, types: seq<string>, maxSizeMb: nat)
    requires |files| > 0 && CanScreen(files, types)
    ensures CanScreen(files[..|files| - 1], types)
    ensures var last := files[|files| - 1];
            (last.mimeType in types || HasSubtypes(types))
            && FileErrors(files, types, maxSizeMb)
               == FileErrors(files[..|files| - 1], types, maxSizeMb)
                  + (if Acceptable(last, types, maxSizeMb) then [] else [RejectionOf(last, types, maxSizeMb)])
  {
  }

  /** Every file lands on exactly one side: the reported errors number the
      batch-level message (if any) plus the rejected files, and accepted
      plus rejected files make up the batch. */
  lemma BatchErrorCount(files: seq<FileDesc>, types: seq<string>, maxSizeMb: nat, maxFiles: nat)
    requires CanScreen(files, types)
    ensures |BatchErrors(files, types, maxSizeMb, maxFiles)|
            == (if |files| > maxFiles then 1 else 0) + |RejectedFiles(files, types, maxSizeMb)|
    ensures |AcceptedFiles(files, types, maxSizeMb)| + |RejectedFiles(files, types, maxSizeMb)| == |files|
  {
    FileErrorsCount(files, types, maxSizeMb);
    FilterPartition((f: FileDesc) => Acceptable(f, types, maxSizeMb),
                    (f: FileDesc) => !Acceptable(f, types, maxSizeMb), files);
  }

  /** A batch above the cap is not cut: every file of it that passes is
      still delivered, also those past position `maxFiles`. */
  lemma OverCapStillDelivered(files: seq<FileDesc>, types: seq<string>, maxSizeMb: nat, maxFiles: nat, k: nat)
    requires CanScreen(files, types)
    requires maxFiles <= k < |files| && Acceptable(files[k], types, maxSizeMb)
    ensures BatchErrors(files, types, maxSizeMb, maxFiles)[0] == TooManyFilesError(maxFiles)
    ensures files[k] in AcceptedFiles(files, types, maxSizeMb)
  {
  }

  class FileUploadZone {
    // props
    const allowedFileTypes: seq<string>
    const maxSizeMb: nat
    const maxFiles: nat
    const disabled: bool
    const isUploading: bool
    // state
    var isDragging: bool
    var errors: seq<string>

    /** A zone with the given props, not dragging and without errors. */
    constructor(allowedFileTypes: seq<string>, maxSizeMb: nat, maxFiles: nat,
                disabled: bool, isUploading: bool)
      ensures this.allowedFileTypes == allowedFileTypes && this.maxSizeMb == maxSizeMb
      ensures this.maxFiles == maxFiles
      ensures this.disabled == disabled && this.isUploading == isUploading
      ensures !isDragging && errors == []
    {
      this.allowedFileTypes := allowedFileTypes;
      this.maxSizeMb := maxSizeMb;
      this.maxFiles := maxFiles;
      this.disabled := disabled;
      this.isUploading := isUploading;
      isDragging := false;
      errors := [];
    }

    /** A zone with every prop at its default: the five image types, 50 MB,
        20 files, enabled and idle. */
    constructor WithDefaults()
      ensures allowedFileTypes == AllowedFileTypes && maxSizeMb == 50 && maxFiles == 20
      ensures !disabled && !isUploading
      ensures !isDragging && errors == []
    {
      allowedFileTypes := AllowedFileTypes;
      maxSizeMb := MaxFileSizeMb;
      maxFiles := DefaultMaxFiles;
      disabled := false;
      isUploading := false;
      isDragging := false;
      errors := [];
    }

    /** `handleFiles`: replaces the errors with those of this batch and
      hands the accepted files on when there is at least one. */
    method HandleFiles(files: seq<FileDesc>) returns (selected: Option<seq<FileDesc>>)
      requires CanScreen(files, allowedFileTypes)
      modifies this`errors
      ensures errors == BatchErrors(files, allowedFileTypes, maxSizeMb, maxFiles)
      ensures var accepted := AcceptedFiles(files, allowedFileTypes, maxSizeMb);
              selected == if |accepted| > 0 then Some(accepted) else None
    {
      var newErrors, validFiles := ScreenFiles(files, allowedFileTypes, maxSizeMb, maxFiles);
      errors := newErrors;
      if |validFiles| > 0 {
        selected := Some(validFiles);
      } else {
        selected := None;
      }
    }

    /** The zone accepts drops only while neither disabled nor uploading. */
    predicate Enabled()
      reads this
    {
      !disabled && !isUploading
    }

    method HandleDragOver()
      modifies this`isDragging
      ensures isDragging == (Enabled() || old(isDragging))
    {
      if Enabled() {
        isDragging := true;
      }
    }

    method HandleDragLeave()
      modifies this`isDragging
      ensures !isDragging
    {
      isDragging := false;
    }

    /** A drop ends the drag; the files are screened only when the zone is
      enabled, otherwise nothing else happens. */
    method HandleDrop(files: seq<FileDesc>) returns (selected: Option<seq<FileDesc>>)
      requires CanScreen(files, allowedFileTypes)
      modifies this`isDragging, this`errors
      ensures !isDragging
      ensures !Enabled() ==> selected == None && errors == old(errors)
      ensures Enabled() ==> errors == BatchErrors(files, allowedFileTypes, maxSizeMb, maxFiles)
      ensures Enabled() ==> var accepted := AcceptedFiles(files, allowedFileTypes, maxSizeMb);
                            selected == if |accepted| > 0 then Some(accepted) else None
    {
      isDragging := false;
      if Enabled() {
        selected := HandleFiles(files);
      } else {
        selected := None;
      }
    }

    /** The file picker: screens the picked files when there are any. */
    method HandleInputChange(files: Option<seq<FileDesc>>) returns (selected: Option<seq<FileDesc>>)
      requires files.Some? ==> CanScreen(files.value, allowedFileTypes)
      modifies this`errors
      ensures files.None? ==> selected == None && errors == old(errors)
      ensures files.Some? ==> errors == BatchErrors(files.value, allowedFileTypes, maxSizeMb, maxFiles)
      ensures files.Some? ==> var accepted := AcceptedFiles(files.value, allowedFileTypes, maxSizeMb);
                              selected == if |accepted| > 0 then Some(accepted) else None
    {
      if files.Some? {
        selected := HandleFiles(files.value);
      } else {
        selected := None;
      }
    }
  }
}
