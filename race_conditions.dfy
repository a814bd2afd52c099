/**
  `MyString` of ch_23_multithreding/raceconditions.cpp: a heap buffer and its
  length. `assign` measures a NUL-terminated string with `strlen`, frees the old
  buffer, allocates a new one of exactly that length and copies the characters
  into it; `operator<<` writes the buffer out as a C string, that is up to the
  first NUL.

  As written, `assign` copies `strlen(str)` characters and so never the
  terminator, and the buffer it leaves has no NUL for `operator<<` to stop at:
  `MyString.Assign` models that code and proves the buffer unprintable.
  `MyString.AssignTerminated` allocates and copies one more character, the
  terminator, and is the version the rest of the model uses.
*/
module RaceConditions {

  /** The C string terminator. */
  const Nul: char := '\0'

  /** `std::strlen`: the number of characters before the first NUL. */
  function StrLen(s: seq<char>): (n: nat)
    requires Nul in s
    ensures n < |s| && s[n] == Nul
    ensures forall k :: 0 <= k < n ==> s[k] != Nul
  {
    if s[0] == Nul then 0 else 1 + StrLen(s[1..])
  }

  class MyString {
    var buffer: array?<char>
    var size: nat

    /** The in-class initialisers: no buffer, size 0. */
    constructor ()
      ensures buffer == null && size == 0
    {
      buffer := null;
      size := 0;
    }

    /** What `operator<<` needs: a buffer that holds a terminating NUL. */
    predicate Printable()
      reads this, buffer
    {
      buffer != null && Nul in buffer[..]
    }

    /** `assign` as written: the new buffer holds the `m_size` characters before
        `str`'s terminator and not the terminator itself. */
    method Assign(str: seq<char>)
      requires Nul in str
      modifies this
      ensures size == StrLen(str)
      ensures buffer != null && fresh(buffer) && buffer.Length == size
      ensures buffer[..] == str[..size]
      ensures !Printable()
    {
      size := StrLen(str);
      buffer := new char[size];
      forall k | 0 <= k < size {
        buffer[k] := str[k];
      }
      assert buffer[..] == str[..size];
    }

    /** `assign` with room for the terminator: `m_size + 1` cells, the last one
        the NUL copied from `str`. */
    method AssignTerminated(str: seq<char>)
      requires Nul in str
      modifies this
      ensures size == StrLen(str)
      ensures buffer != null && fresh(buffer) && buffer.Length == size + 1
      ensures buffer[..] == str[..size + 1]
      ensures Printable()
    {
      size := StrLen(str);
      buffer := new char[size + 1];
      forall k | 0 <= k < size + 1 {
        buffer[k] := str[k];
      }
      assert buffer[..] == str[..size + 1];
      assert buffer[..][size] == Nul;
    }

    /** `operator<<`: the characters of the buffer before its first NUL. */
    method Print() returns (text: seq<char>)
      requires Printable()
      ensures |text| < buffer.Length && text == buffer[..|text|]
      ensures buffer[|text|] == Nul && Nul !in text
    {
      text := buffer[..StrLen(buffer[..])];
    }
  }

  /** `main`: assigning "Hello, World!" and writing it out gives back the text. */
  method RaceConditionsMain() returns (text: seq<char>)
    ensures text == "Hello, World!"
  {
    var s := new MyString();
    var literal := "Hello, World!" + [Nul];
    s.AssignTerminated(literal);
    text := s.Print();
    assert StrLen(literal) == 13 by {
      assert literal[13] == Nul;
      assert forall k :: 0 <= k < 13 ==> literal[k] != Nul;
    }
    assert text == s.buffer[..13];
  }
}
