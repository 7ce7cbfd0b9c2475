# Companion texture path of the bricklayer viewer

The viewer loads each mesh file together with a sprite texture that sits
beside it under the same name, with the mesh's three-character extension
replaced by `aseprite` (`/a/b/m.obj` → `/a/b/m.aseprite`). This project models
the C routine that derives that name, `path_get_corresponding_texture_file`,
at two levels:

- `TexturePath.CompanionPath`, a pure function over `seq<char>`: no companion
  for a path shorter than three characters, otherwise the path minus its last
  three characters followed by `aseprite`;
- `TexturePath.CorrespondingTextureFile`, a method that repeats the C steps on
  a heap array of `length + 6` characters — `strlen`, `malloc`, `memcpy`, the
  terminator written at `target_length - 9`, `strcat` — and is proved to stay
  inside the allocation and to produce exactly the functional result followed
  by its terminator.

The C conventions the routine relies on live in module `CStrings`: a string
is the run of a buffer before its first NUL (`CString`), and `Strlen`,
`Memcpy` and `Strcat` work on buffers by index. `Strcat` carries C's own
obligation that the buffer has room for the appended characters and the
terminator; the method's call to it discharges that obligation.

Modelling choices:

- One Dafny `char` stands for one byte of the C string. "The last three
  characters" therefore means the last three bytes: an extension whose UTF-8
  encoding takes more bytes is cut in the middle of a sequence, as the C
  code does, and `m.ü` (four bytes) becomes `maseprite`.
- The argument pointer is modelled as the memory behind it: a `seq<char>`
  that holds a NUL somewhere. Only the characters before the first NUL
  influence the result.
- `malloc` hands back uninitialised memory; its contents are the parameter
  `garbage`, which gives each offset of the buffer its own arbitrary value.
  The proof shows that every one of the `length + 6` bytes is
  written, so the returned buffer does not depend on `garbage`.
- A NULL return is `None`; a pointer return is `Some` of the whole buffer.

## Model

| member | source | states |
|---|---|---|
| CStrings.CString | src/path.c:8 | the C string of a buffer is its prefix before the first NUL: it is shorter than the buffer, holds no NUL, and the buffer has a NUL right after it |
| CStrings.Strlen | src/path.c:8 | strlen stops at a NUL, every character it passed is non-NUL, and its count is the length of the buffer's C string |
| CStrings.CStringOfTerminatedPrefix | src/path.c:15-16 | writing a NUL after a NUL-free prefix makes that prefix the buffer's C string, whatever follows the terminator |
| CStrings.CopyInto | src/path.c:14-16 | the byte loop behind memcpy and strcat writes its characters from the given index on, inside the buffer, and changes nothing else |
| CStrings.Memcpy | src/path.c:14 | memcpy of `count` bytes puts the source's first `count` characters at the start of the buffer and leaves the rest untouched |
| CStrings.Strcat | src/path.c:16 | strcat writes the appended characters and a new NUL starting at the old terminator, leaves every other byte alone, and the buffer's C string becomes the old one followed by the appended text |
| TexturePath.CompanionPath | src/path.c:7-19 | no companion exactly when the path is shorter than 3; otherwise the result is 5 characters longer than the path, keeps all but its last 3 characters, and ends in `aseprite` |
| TexturePath.CorrespondingTextureFile | src/path.c:7-19 | NULL exactly when strlen is under 3; otherwise a buffer of exactly `length + 6` bytes whose last byte is the only NUL, whose C string is the functional companion path, and whose contents depend on nothing but the input string |
| TexturePath.TruncatedCopy | src/path.c:11-15 | after the whole path is copied into the `length + 6` buffer and a NUL is written at `target_length - 9`, the buffer's C string is the path minus its last three characters, leaving exactly room for 8 characters and a terminator |
| TexturePath.AppendedExtension | src/path.c:15-16 | appending `aseprite` and a NUL at index `length - 3` fills the buffer to its last byte with the companion path and its terminator |
| TexturePath.MeshPathOfCompanion | src/path.c:14-16 | removing `aseprite` from a companion path and putting back the mesh's own last three characters gives the mesh path again |
| TexturePath.CompanionOfMeshPath | src/path.c:14-16 | every path ending in `aseprite` is the companion of the mesh path obtained by swapping any three-character extension back in |
| TexturePath.SameCompanion | src/path.c:9-16 | two paths get the same answer exactly when both are too short or both agree after dropping their last three characters: the old extension is never inspected |
| TexturePath.CompanionIsCString | src/path.c:14-16 | a companion derived from a NUL-free path is NUL-free, so its C string is the whole derived path |
| TexturePath.TestedExamples | test/test_path.c:10-32 | the three tested cases: the full path with `.obj`, the bare `obj`, and the too-short `oj` |
| TexturePath.TestedFullPath | test/test_path.c:10-17 | the routine on the NUL-terminated `/path/to/somewhere/amodelname.obj` returns a buffer holding `/path/to/somewhere/amodelname.aseprite` and its terminator |
| TexturePath.TestedBareExtension | test/test_path.c:19-26 | the routine on the NUL-terminated `obj` returns a buffer holding `aseprite` and its terminator |
| TexturePath.TestedTooShort | test/test_path.c:28-32 | the routine on the NUL-terminated `oj` returns NULL |

## Left out

- Allocation failure: `malloc` is unchecked in the routine, and the model assumes it succeeds.
- TexturePath.CorrespondingTextureFile: `length + 6` is not reduced modulo the width of `size_t`; a string long enough to wrap it cannot fit in addressable memory.
- Freeing the returned buffer, which is the caller's job.
- The viewer's main program (model and texture loading, the file watcher, the render loop): it is GPU, threading and windowing code around library calls whose source is not part of this model.
- The sprite decoder and the reload request stack: their code lives in headers that are not part of this model.
