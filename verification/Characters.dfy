/** Character classes of ECMAScript shared by the text-handling modules. */
module Characters {

  /** The white space and line terminators that `String.prototype.trim` strips. */
  predicate IsSpaceCode(n: int) {
    9 <= n <= 13 || n == 32 || n == 0xA0 || n == 0x1680 || 0x2000 <= n <= 0x200A ||
    n == 0x2028 || n == 0x2029 || n == 0x202F || n == 0x205F || n == 0x3000 || n == 0xFEFF
  }

  predicate IsSpace(c: char) {
    IsSpaceCode(c as int)
  }
}
