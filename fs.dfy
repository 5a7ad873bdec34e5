/**
 * The filesystem `write` stores into: a map from path to file contents,
 * updated in place by `fs.writeFile`.
 */
module Fs {

  class FileSystem {
    var files: map<string, string>

    constructor (initial: map<string, string>)
      ensures files == initial
    {
      files := initial;
    }

    /** `fs.writeFile(path, data)`: the file at `path` now holds exactly `data`. */
    method WriteFile(path: string, data: string)
      modifies this
      ensures files == old(files)[path := data]
    {
      files := files[path := data];
    }
  }
}
