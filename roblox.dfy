/** The two Roblox binaries the launcher runs, and where each one's wineprefix lives. */
module Roblox {
  import opened GoStrings

  datatype BinaryType = Player | Studio
  {
    /** BinaryType.String(): the display alias. */
    function String(): string
    {
      match this
      case Player => "Player"
      case Studio => "Studio"
    }
  }

  /** unicode.ToLower for the ASCII letters. */
  function LowerChar(c: char): char
  {
    if 'A' <= c <= 'Z' then (c as int + 32) as char else c
  }

  /** strings.ToLower, for the ASCII aliases it is applied to here. */
  function ToLower(s: string): (r: string)
    ensures |r| == |s|
  {
    seq(|s|, i requires 0 <= i < |s| => LowerChar(s[i]))
  }

  /**
   * BinaryPrefixDir: the wineprefix of a binary type, the lower-cased alias
   * under the prefixes directory.
   */
  function BinaryPrefixDir(prefixes: string, bt: BinaryType): string
  {
    JoinPath(prefixes, ToLower(bt.String()))
  }

  /**
   * Each binary type has a wineprefix of its own, directly under `prefixes`,
   * named after its lower-cased alias; the Player and Studio prefixes never
   * coincide, which is what keeps one run of each from sharing an environment.
   */
  lemma PrefixDirPerType(prefixes: string, bt: BinaryType)
    ensures HasPrefix(BinaryPrefixDir(prefixes, bt), prefixes)
    ensures var d := BinaryPrefixDir(prefixes, bt);
            d[|d| - 6..] == (if bt.Player? then "player" else "studio")
    ensures BinaryPrefixDir(prefixes, Player) != BinaryPrefixDir(prefixes, Studio)
    ensures var name := if bt.Player? then "player" else "studio";
            BinaryPrefixDir(prefixes, bt) ==
              if prefixes == "" then name
              else if prefixes[|prefixes| - 1] == '/' then prefixes + name
              else prefixes + "/" + name
  {
    LowerAliases();
    var p, s := BinaryPrefixDir(prefixes, Player), BinaryPrefixDir(prefixes, Studio);
    assert p[|p| - 6..] == "player";
    assert s[|s| - 6..] == "studio";
    assert p[|p| - 6] != s[|s| - 6];
  }

  /** The lower-cased aliases, letter by letter. */
  lemma LowerAliases()
    ensures ToLower("Player") == "player"
    ensures ToLower("Studio") == "studio"
  {
    forall i | 0 <= i < 6 ensures ToLower("Player")[i] == "player"[i] { }
    forall i | 0 <= i < 6 ensures ToLower("Studio")[i] == "studio"[i] { }
  }
}
