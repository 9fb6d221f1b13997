/** A text encoding of a list of strings: each field is escaped and terminated by a separator.
    It stands for the `JSON.stringify`/`JSON.parse` pair the session manager uses to keep the
    user record in string-valued storage; what the model relies on is that decoding undoes
    encoding. */
module Codec {
  import opened Wrappers

  const Separator: char := ';'
  const EscapeChar: char := '\\'

  /** `f` with every separator and escape character preceded by an escape character. */
  function Escape(f: string): string
  {
    if f == [] then []
    else (if f[0] == Separator || f[0] == EscapeChar then [EscapeChar, f[0]] else [f[0]]) + Escape(f[1..])
  }

  function EncodeFields(fs: seq<string>): (r: string)
    ensures fs != [] ==> r != []
  {
    if fs == [] then [] else Escape(fs[0]) + [Separator] + EncodeFields(fs[1..])
  }

  /** Reads one escaped field up to its unescaped separator; returns the field and what
      follows the separator, or None when no separator terminates it. */
  function ReadField(s: string): (r: Option<(string, string)>)
    ensures r.Some? ==> |r.value.1| < |s|
  {
    if s == [] then None
    else if s[0] == Separator then Some(([], s[1..]))
    else if s[0] == EscapeChar then
      if |s| < 2 then None
      else match ReadField(s[2..])
        case None => None
        case Some((f, rest)) => Some(([s[1]] + f, rest))
    else match ReadField(s[1..])
      case None => None
      case Some((f, rest)) => Some(([s[0]] + f, rest))
  }

  function DecodeFields(s: string): Option<seq<string>>
    decreases |s|
  {
    if s == [] then Some([])
    else match ReadField(s)
      case None => None
      case Some((f, rest)) =>
        match DecodeFields(rest)
        case None => None
        case Some(fs) => Some([f] + fs)
  }

  /** Reading an escaped field back yields the field and leaves the rest of the text. */
  lemma {:induction false} ReadEscaped(f: string, rest: string)
    ensures ReadField(Escape(f) + [Separator] + rest) == Some((f, rest))
  {
    if f == [] {
      assert Escape(f) + [Separator] + rest == [Separator] + rest;
    } else {
      var s := Escape(f) + [Separator] + rest;
      ReadEscaped(f[1..], rest);
      if f[0] == Separator || f[0] == EscapeChar {
        assert s == [EscapeChar, f[0]] + (Escape(f[1..]) + [Separator] + rest);
        assert s[2..] == Escape(f[1..]) + [Separator] + rest;
      } else {
        assert s == [f[0]] + (Escape(f[1..]) + [Separator] + rest);
        assert s[1..] == Escape(f[1..]) + [Separator] + rest;
      }
      assert [f[0]] + f[1..] == f;
    }
  }

  /** Decoding undoes encoding. */
  lemma {:induction false} DecodeEncode(fs: seq<string>)
    ensures DecodeFields(EncodeFields(fs)) == Some(fs)
  {
    if fs != [] {
      var rest := EncodeFields(fs[1..]);
      assert EncodeFields(fs) == Escape(fs[0]) + [Separator] + rest;
      ReadEscaped(fs[0], rest);
      DecodeEncode(fs[1..]);
      assert [fs[0]] + fs[1..] == fs;
    }
  }
}
