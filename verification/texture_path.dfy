/**
 * The companion-path derivation of the viewer: every mesh file has a sprite
 * texture beside it whose name is the mesh path with its last three
 * characters (the extension) replaced by "aseprite".
 */
module TexturePath {
  import opened Wrappers
  import opened CStrings

  /** The extension appended to every derived texture path. */
  const TextureExtension: seq<char> := "aseprite"

  /** How many trailing characters are cut off: the mesh file's extension. */
  const StrippedLength: nat := 3

  /** The allocation exceeds the input length by this many bytes. */
  const ExtraBytes: nat := 6

  /** The sizes the buffer arithmetic rests on: 3 + 6 bytes is the 8-character extension plus its NUL. */
  lemma TextureExtensionFacts()
    ensures |TextureExtension| == 8
    ensures NoNul(TextureExtension)
    ensures StrippedLength + ExtraBytes == |TextureExtension| + 1
  {
  }

  /**
   * The functional description: no companion for a path shorter than the
   * stripped extension; otherwise the path minus its last three characters,
   * followed by the texture extension.
   */
  function CompanionPath(mesh: seq<char>): (r: Option<seq<char>>)
    ensures r.None? <==> |mesh| < StrippedLength
    ensures r.Some? ==> |r.value| == |mesh| + |TextureExtension| - StrippedLength
    ensures r.Some? ==> r.value[..|mesh| - StrippedLength] == mesh[..|mesh| - StrippedLength]
    ensures r.Some? ==> r.value[|mesh| - StrippedLength..] == TextureExtension
  {
    if |mesh| < StrippedLength then None
    else Some(mesh[..|mesh| - StrippedLength] + TextureExtension)
  }

  /**
   * path_get_corresponding_texture_file, step by step as the C code does it.
   * `src` is the memory behind the argument pointer; `garbage(i)` is
   * whatever malloc leaves at offset `i` of the fresh buffer. The result is None for the NULL return,
   * or the whole allocated buffer, every byte of it, for a pointer return.
   */
  method CorrespondingTextureFile(src: seq<char>, garbage: nat -> char) returns (result: Option<seq<char>>)
    requires Terminated(src)
    ensures result.None? <==> |CString(src)| < StrippedLength
    ensures result.Some? ==> |result.value| == |CString(src)| + ExtraBytes
    ensures result.Some? ==> result.value[|result.value| - 1] == NUL
    ensures result.Some? ==> Terminated(result.value)
    ensures result.Some? ==> CompanionPath(CString(src)) == Some(CString(result.value))
    ensures result.Some? ==> result.value == CString(result.value) + [NUL]
    ensures result.Some? ==> result.value == CompanionPath(CString(src)).value + [NUL]
  {
    var length := Strlen(src);
    if length < StrippedLength {
      return None;
    }
    ghost var mesh := src[..length];
    var targetLength := length + ExtraBytes;
    var destination := new char[targetLength](garbage);
    ghost var slack := destination[length..];

    Memcpy(destination, src, length);
    assert destination[..] == mesh + slack;

    destination[targetLength - 9] := NUL;
    ghost var truncated := destination[..];
    assert truncated == (mesh + slack)[length - StrippedLength := NUL];
    TruncatedCopy(mesh, slack, truncated);
    TextureExtensionFacts();

    var at := Strcat(destination, TextureExtension);
    AppendedExtension(mesh, truncated, at, destination[..]);
    assert CString(src) == mesh;
    CompanionIsCString(mesh);
    result := Some(destination[..]);
  }

  /**
   * After the whole mesh path is copied into the fresh buffer and a NUL is
   * written three characters before its end, the buffer holds the stem.
   */
  lemma TruncatedCopy(mesh: seq<char>, slack: seq<char>, truncated: seq<char>)
    requires NoNul(mesh) && |mesh| >= StrippedLength && |slack| == ExtraBytes
    requires truncated == (mesh + slack)[|mesh| - StrippedLength := NUL]
    ensures Terminated(truncated)
    ensures CString(truncated) == truncated[..|mesh| - StrippedLength] == mesh[..|mesh| - StrippedLength]
    ensures |CString(truncated)| + |TextureExtension| + 1 == |truncated|
  {
    var stem := mesh[..|mesh| - StrippedLength];
    assert truncated == stem + [NUL] + truncated[|mesh| - 2..];
    CStringOfTerminatedPrefix(stem, truncated[|mesh| - 2..]);
    TextureExtensionFacts();
  }

  /**
   * strcat of the texture extension onto the truncated buffer fills it to
   * the last byte with the companion path and its terminator.
   */
  lemma AppendedExtension(mesh: seq<char>, truncated: seq<char>, at: nat, appended: seq<char>)
    requires at == |mesh| - StrippedLength && |truncated| == |mesh| + ExtraBytes
    requires truncated[..at] == mesh[..at]
    requires appended == truncated[..at] + TextureExtension + [NUL] + truncated[at + |TextureExtension| + 1..]
    ensures appended == CompanionPath(mesh).value + [NUL]
  {
  }

  /**
   * The inverse direction: the mesh path a texture path was derived from,
   * given the extension that was cut off. None when the texture path does
   * not end in the texture extension.
   */
  function MeshPath(texture: seq<char>, extension: seq<char>): (r: Option<seq<char>>)
    requires |extension| == StrippedLength
    ensures r.Some? <==> |texture| >= |TextureExtension| && texture[|texture| - |TextureExtension|..] == TextureExtension
    ensures r.Some? ==> |r.value| + |TextureExtension| == |texture| + StrippedLength
  {
    var n := |texture| - |TextureExtension|;
    if n >= 0 && texture[n..] == TextureExtension then Some(texture[..n] + extension)
    else None
  }

  /** Cutting the texture extension and putting back the mesh's own gives the mesh path again. */
  lemma MeshPathOfCompanion(mesh: seq<char>)
    requires |mesh| >= StrippedLength
    ensures MeshPath(CompanionPath(mesh).value, mesh[|mesh| - StrippedLength..]) == Some(mesh)
  {
    var texture := CompanionPath(mesh).value;
    var n := |texture| - |TextureExtension|;
    assert texture[n..] == TextureExtension;
    assert texture[..n] + mesh[|mesh| - StrippedLength..] == mesh;
  }

  /** Every path that ends in the texture extension is the companion of some mesh path. */
  lemma CompanionOfMeshPath(texture: seq<char>, extension: seq<char>)
    requires |extension| == StrippedLength
    requires MeshPath(texture, extension).Some?
    ensures CompanionPath(MeshPath(texture, extension).value) == Some(texture)
  {
    var n := |texture| - |TextureExtension|;
    var mesh := texture[..n] + extension;
    assert mesh[..|mesh| - StrippedLength] == texture[..n];
    assert texture == texture[..n] + texture[n..];
  }

  /**
   * The old extension is never looked at: two mesh paths share a companion
   * exactly when both are too short, or both agree once their last three
   * characters are dropped.
   */
  lemma SameCompanion(a: seq<char>, b: seq<char>)
    ensures CompanionPath(a) == CompanionPath(b) <==>
      (|a| < StrippedLength && |b| < StrippedLength) ||
      (|a| >= StrippedLength && |b| >= StrippedLength &&
       a[..|a| - StrippedLength] == b[..|b| - StrippedLength])
  {
  }

  /**
   * A companion derived from a C string is itself a C string, so that strcat
   * appended right after the kept stem, and it ends in the texture extension.
   */
  lemma CompanionIsCString(mesh: seq<char>)
    requires NoNul(mesh) && |mesh| >= StrippedLength
    ensures NoNul(CompanionPath(mesh).value)
    ensures Terminated(CompanionPath(mesh).value + [NUL])
    ensures CString(CompanionPath(mesh).value + [NUL]) == CompanionPath(mesh).value
  {
  }

  /** The cases the unit tests pin down: a full path, a bare extension, and a path that is too short. */
  lemma TestedExamples()
    ensures CompanionPath("/path/to/somewhere/amodelname.obj") == Some("/path/to/somewhere/amodelname.aseprite")
    ensures CompanionPath("obj") == Some("aseprite")
    ensures CompanionPath("oj") == None
  {
    var mesh := "/path/to/somewhere/amodelname.obj";
    var stem := "/path/to/somewhere/amodelname.";
    assert mesh[..|mesh| - StrippedLength] == stem;
    assert stem + TextureExtension == "/path/to/somewhere/amodelname.aseprite";
  }

  /** A C string literal: its characters followed by the terminator the compiler adds. */
  lemma LiteralCString(s: seq<char>)
    requires NoNul(s)
    ensures Terminated(s + [NUL]) && CString(s + [NUL]) == s
  {
  }

  /**
   * The unit tests' cases run through the byte-level routine on their
   * NUL-terminated literals, whatever malloc leaves in the buffer.
   */
  method TestedFullPath(garbage: nat -> char) returns (r: Option<seq<char>>)
    ensures r == Some("/path/to/somewhere/amodelname.aseprite" + [NUL])
  {
    var mesh := "/path/to/somewhere/amodelname.obj";
    TestedExamples();
    LiteralCString(mesh);
    r := CorrespondingTextureFile(mesh + [NUL], garbage);
  }

  method TestedBareExtension(garbage: nat -> char) returns (r: Option<seq<char>>)
    ensures r == Some("aseprite" + [NUL])
  {
    TestedExamples();
    LiteralCString("obj");
    r := CorrespondingTextureFile("obj" + [NUL], garbage);
  }

  method TestedTooShort(garbage: nat -> char) returns (r: Option<seq<char>>)
    ensures r == None
  {
    LiteralCString("oj");
    r := CorrespondingTextureFile("oj" + [NUL], garbage);
  }
}
