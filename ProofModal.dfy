/**
 * The proof-upload modal: the file check (type allow-list, then the 5 MiB
 * limit), the selected file and its error, the drag highlight, and the icon
 * chosen for a file type.
 */
module ProofModal {
  import opened Text

  /** What the modal reads of a browser `File`. */
  datatype FileInfo = FileInfo(name: string, mimeType: string, size: nat)

  /** 5 MiB. */
  const MaxSize: nat := 5 * 1024 * 1024

  const AllowedTypes: seq<string> := ["image/jpeg", "image/png", "image/jpg", "application/pdf"]

  const InvalidTypeError := "Please select a valid image (JPG, PNG) or PDF file"
  const TooLargeError := "File size must be less than 5MB"
  const NoFileError := "Please select a file"

  /** The error `validateAndSetFile` reports for a file, if any: the type is checked first. */
  function FileError(f: FileInfo): (r: Option<string>)
    ensures r.None? <==> f.mimeType in AllowedTypes && f.size <= MaxSize
    ensures f.mimeType !in AllowedTypes ==> r == Some(InvalidTypeError)
    ensures f.mimeType in AllowedTypes && f.size > MaxSize ==> r == Some(TooLargeError)
  {
    if f.mimeType !in AllowedTypes then Some(InvalidTypeError)
    else if f.size > MaxSize then Some(TooLargeError)
    else None
  }

  /** The limit is inclusive: exactly 5 MiB passes, one byte more does not. */
  lemma SizeLimitIsInclusive(name: string, mimeType: string)
    requires mimeType in AllowedTypes
    ensures FileError(FileInfo(name, mimeType, 5242880)).None?
    ensures FileError(FileInfo(name, mimeType, 5242881)) == Some(TooLargeError)
  {
  }

  /** An oversized file of a wrong type reports the type, not the size. */
  lemma TypeCheckedBeforeSize(f: FileInfo)
    requires f.mimeType !in AllowedTypes && f.size > MaxSize
    ensures FileError(f) == Some(InvalidTypeError) && FileError(f) != Some(TooLargeError)
  {
  }

  // ---------------------------------------------------------------------
  // Icons

  datatype FileIcon = ImageIcon | DocumentIcon

  /** `getFileIcon`: the image icon for any type starting with 'image/'. */
  function GetFileIcon(fileType: Option<string>): (r: FileIcon)
    ensures r == ImageIcon <==> fileType.Some? && StartsWith(fileType.value, "image/")
  {
    if fileType.Some? && StartsWith(fileType.value, "image/") then ImageIcon else DocumentIcon
  }

  /** Among accepted files, only the PDF gets the document icon. */
  lemma AcceptedFileIcons(f: FileInfo)
    requires FileError(f).None?
    ensures GetFileIcon(Some(f.mimeType)) == DocumentIcon <==> f.mimeType == "application/pdf"
  {
    var t := f.mimeType;
    assert t == "image/jpeg" || t == "image/png" || t == "image/jpg" || t == "application/pdf";
    if t == "application/pdf" {
      assert t[..6] != "image/" by { assert t[0] == 'a'; }
    } else {
      assert t[..6] == "image/";
    }
  }

  // ---------------------------------------------------------------------
  // Drag highlight

  /** `handleDrag`: the highlight after a drag event of the given type. */
  function DragActiveAfter(active: bool, eventType: string): (r: bool)
    ensures eventType == "dragenter" || eventType == "dragover" ==> r
    ensures eventType == "dragleave" ==> !r
    ensures eventType != "dragenter" && eventType != "dragover" && eventType != "dragleave" ==> r == active
  {
    if eventType == "dragenter" || eventType == "dragover" then true
    else if eventType == "dragleave" then false
    else active
  }

  class UploadProofModal {
    var selectedFile: Option<FileInfo>
    var dragActive: bool
    /** `errors.file`; the modal's errors object holds no other key. */
    var fileError: Option<string>

    /** A selected file has always passed the check. */
    ghost predicate Valid()
      reads this
    {
      selectedFile.Some? ==> FileError(selectedFile.value).None?
    }

    constructor ()
      ensures Valid()
      ensures selectedFile == None && !dragActive && fileError == None
    {
      selectedFile := None;
      dragActive := false;
      fileError := None;
    }

    /** `validateAndSetFile`: a rejected file keeps the previous selection. */
    method ValidateAndSetFile(file: FileInfo)
      requires Valid()
      modifies this`selectedFile, this`fileError
      ensures Valid()
      ensures FileError(file).None? ==> selectedFile == Some(file) && fileError == None
      ensures FileError(file).Some? ==> selectedFile == old(selectedFile) && fileError == FileError(file)
    {
      if file.mimeType !in AllowedTypes {
        fileError := Some(InvalidTypeError);
        return;
      }
      if file.size > MaxSize {
        fileError := Some(TooLargeError);
        return;
      }
      fileError := None;
      selectedFile := Some(file);
    }

    /** `handleDrag`. */
    method HandleDrag(eventType: string)
      requires Valid()
      modifies this`dragActive
      ensures Valid()
      ensures dragActive == DragActiveAfter(old(dragActive), eventType)
    {
      if eventType == "dragenter" || eventType == "dragover" {
        dragActive := true;
      } else if eventType == "dragleave" {
        dragActive := false;
      }
    }

    /** `handleDrop`: ends the highlight and checks the first dropped file, if any. */
    method HandleDrop(files: seq<FileInfo>)
      requires Valid()
      modifies this
      ensures Valid()
      ensures !dragActive
      ensures files == [] ==> selectedFile == old(selectedFile) && fileError == old(fileError)
      ensures files != [] && FileError(files[0]).None? ==> selectedFile == Some(files[0]) && fileError == None
      ensures files != [] && FileError(files[0]).Some? ==>
                selectedFile == old(selectedFile) && fileError == FileError(files[0])
    {
      dragActive := false;
      if files != [] {
        ValidateAndSetFile(files[0]);
      }
    }

    /** `handleFileSelect`: checks the first chosen file, if any. */
    method HandleFileSelect(files: seq<FileInfo>)
      requires Valid()
      modifies this`selectedFile, this`fileError
      ensures Valid()
      ensures files == [] ==> selectedFile == old(selectedFile) && fileError == old(fileError)
      ensures files != [] && FileError(files[0]).None? ==> selectedFile == Some(files[0]) && fileError == None
      ensures files != [] && FileError(files[0]).Some? ==>
                selectedFile == old(selectedFile) && fileError == FileError(files[0])
    {
      if files != [] {
        ValidateAndSetFile(files[0]);
      }
    }

    /**
     * `handleSubmit`: with no file it only sets the error; otherwise the file
     * goes to `onSubmit` as the form data's 'proof' entry.
     */
    method HandleSubmit() returns (submitted: Option<FileInfo>)
      requires Valid()
      modifies this`fileError
      ensures Valid()
      ensures submitted == selectedFile
      ensures selectedFile.None? ==> fileError == Some(NoFileError)
      ensures selectedFile.Some? ==> fileError == old(fileError)
    {
      if selectedFile.None? {
        fileError := Some(NoFileError);
        return None;
      }
      submitted := selectedFile;
    }

    /** `removeFile`. */
    method RemoveFile()
      requires Valid()
      modifies this`selectedFile, this`fileError
      ensures Valid()
      ensures selectedFile == None && fileError == None
    {
      selectedFile := None;
      fileError := None;
    }
  }
}
