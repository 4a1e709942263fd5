/**
 * The two Print sinks of src/utils.h: PrintSizeCalculator, which only counts
 * the bytes written to it, and BufferPrinter, which stores them in a
 * caller's buffer of `size` characters plus a terminating NUL. size_t is 32
 * bits wide on the boards, so the calculator's count wraps at 2^32.
 */
module Printers {
  import opened Basics
  import opened CStrings

  class PrintSizeCalculator {
    var size: uint32

    constructor ()
      ensures size == 0
    {
      size := 0;
    }

    /** write(c): counts the byte and reports it written. */
    method Write(c: uint8) returns (written: nat)
      modifies this
      ensures written == 1 && size == Add32(old(size), 1)
    {
      size := Add32(size, 1);
      written := 1;
    }
  }

  class BufferPrinter {
    const buffer: array<char>
    const size: nat
    var pos: nat

    /** The buffer has room for `size` characters and the NUL after them. */
    ghost predicate Valid()
      reads this
    {
      pos <= size < buffer.Length
    }

    /** The characters stored so far. */
    function Contents(): seq<char>
      reads this, buffer
      requires Valid()
    {
      buffer[..pos]
    }

    constructor (buffer: array<char>, size: nat)
      requires size < buffer.Length
      ensures Valid() && this.buffer == buffer && this.size == size && pos == 0
    {
      this.buffer := buffer;
      this.size := size;
      pos := 0;
    }

    /**
     * write(c): while there is room, stores the byte, keeps the NUL after it
     * and reports it written; once full, reports 0 and changes nothing.
     */
    method Write(c: uint8) returns (written: nat)
      requires Valid()
      modifies this, buffer
      ensures Valid()
      ensures written == 1 <==> old(pos) < size
      ensures written == 0 <==> old(pos) == size
      ensures old(pos) < size ==>
        pos == old(pos) + 1 && buffer[..] == old(buffer[..])[old(pos) := c as char][pos := Nul]
      ensures old(pos) == size ==> pos == old(pos) && buffer[..] == old(buffer[..])
    {
      if pos < size {
        buffer[pos] := c as char;
        pos := pos + 1;
        buffer[pos] := Nul;
        written := 1;
      } else {
        written := 0;
      }
    }
  }

  /**
   * Writing one byte after another, as a caller of both printers does, and
   * stopping at the first byte a printer does not take.
   */
  method PrintTo(p: BufferPrinter, text: seq<uint8>) returns (accepted: nat)
    requires p.Valid()
    modifies p, p.buffer
    ensures p.Valid() && accepted == Min(|text|, old(p.size - p.pos))
    ensures p.Contents() == old(p.Contents()) + Chars(text[..accepted])
    ensures accepted > 0 ==> p.buffer[p.pos] == Nul
    ensures accepted == 0 ==> p.buffer[..] == old(p.buffer[..])
  {
    accepted := 0;
    while accepted < |text|
      invariant p.Valid() && accepted <= |text| && p.pos == old(p.pos) + accepted <= p.size
      invariant p.Contents() == old(p.Contents()) + Chars(text[..accepted])
      invariant accepted > 0 ==> p.buffer[p.pos] == Nul
      invariant accepted == 0 ==> p.buffer[..] == old(p.buffer[..])
      decreases |text| - accepted
    {
      ghost var before := p.Contents();
      var w := p.Write(text[accepted]);
      if w == 0 {
        break;
      }
      assert p.Contents() == before + [text[accepted] as char];
      assert text[..accepted + 1] == text[..accepted] + [text[accepted]];
      assert Chars(text[..accepted + 1]) == Chars(text[..accepted]) + [text[accepted] as char];
      accepted := accepted + 1;
    }
  }

  method CountTo(p: PrintSizeCalculator, text: seq<uint8>) returns (accepted: nat)
    modifies p
    ensures accepted == |text| && p.size == (old(p.size) + |text|) % Uint32Modulus
  {
    accepted := 0;
    while accepted < |text|
      invariant accepted <= |text| && p.size == (old(p.size) + accepted) % Uint32Modulus
      decreases |text| - accepted
    {
      var w := p.Write(text[accepted]);
      accepted := accepted + w;
    }
  }

  /** Bytes as the characters a char buffer holds. */
  function Chars(text: seq<uint8>): (r: seq<char>)
    ensures |r| == |text| && forall i :: 0 <= i < |text| ==> r[i] == text[i] as char
  {
    if text == [] then [] else [text[0] as char] + Chars(text[1..])
  }

  /**
   * The sizing idiom the two printers serve: count the text with a
   * PrintSizeCalculator, allocate that many characters and one more, and
   * print it into a BufferPrinter, which then holds the whole text as a
   * C string.
   */
  method SizeThenPrint(text: seq<uint8>) returns (size: uint32, stored: seq<char>)
    requires |text| < Uint32Modulus && forall i :: 0 <= i < |text| ==> text[i] != 0
    ensures size == |text| && stored == Chars(text)
  {
    var calculator := new PrintSizeCalculator();
    var counted := CountTo(calculator, text);
    size := calculator.size;
    var buffer := new char[size + 1](_ => Nul);
    var printer := new BufferPrinter(buffer, size);
    var accepted := PrintTo(printer, text);
    assert text[..accepted] == text;
    assert Nul !in printer.Contents() by {
      forall i | 0 <= i < |text| ensures printer.Contents()[i] != Nul {
        assert printer.Contents()[i] == text[i] as char;
      }
    }
    CStrOfPlain(printer.Contents());
    stored := CStr(buffer[..]);
    assert buffer[printer.pos] == Nul;
    assert buffer[..] == printer.Contents() + [Nul] + buffer[printer.pos + 1..];
    CStrStopsAtNul(printer.Contents(), buffer[printer.pos + 1..]);
  }

  /** A BufferPrinter of `size` characters keeps the first `size` bytes of a longer text and refuses the rest. */
  method PrintTruncated(size: nat, text: seq<uint8>) returns (accepted: nat, contents: seq<char>)
    ensures accepted == Min(|text|, size) && contents == Chars(text[..accepted])
  {
    var buffer := new char[size + 1](_ => Nul);
    var printer := new BufferPrinter(buffer, size);
    accepted := PrintTo(printer, text);
    contents := printer.Contents();
  }
}
