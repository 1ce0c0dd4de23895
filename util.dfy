/** Shared collaborators from org.jreleaser.util. */
module Util {

  /**
   * org.jreleaser.util.Logger. Its output is not modelled; a logger is an
   * opaque value identified by its name.
   */
  datatype Logger = Logger(name: string)
}
