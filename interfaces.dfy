/** The directory-entry record shared by the file providers (`FileInfo` with the part of `fs.Stats` they read). */
module Interfaces {

  datatype FileKind = Directory | RegularFile | OtherKind

  datatype Stat = Stat(kind: FileKind, mode: nat, size: nat) {
    predicate IsDirectory() {
      kind == Directory
    }

    predicate IsFile() {
      kind == RegularFile
    }
  }

  datatype FileInfo = FileInfo(name: string, stat: Stat)
}
