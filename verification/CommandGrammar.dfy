/**
 * The command line grammar: words are split at whitespace, a file is asked for with "->" between
 * the user and the file, and everything after the part that is understood is ignored.
 */
module CommandGrammar {
  import opened Commands

  // ---- Words ----

  /** The White_Space property of Unicode, which is what the words are split at. */
  predicate IsWhitespace(c: char) {
    var n := c as int;
    || 0x09 <= n <= 0x0D || n == 0x20 || n == 0x85 || n == 0xA0 || n == 0x1680
    || 0x2000 <= n <= 0x200A || n == 0x2028 || n == 0x2029 || n == 0x202F || n == 0x205F || n == 0x3000
  }

  /** The 25 code points with that property. */
  const WHITE_SPACE: set<int> := {
    0x09, 0x0A, 0x0B, 0x0C, 0x0D, 0x20, 0x85, 0xA0, 0x1680,
    0x2000, 0x2001, 0x2002, 0x2003, 0x2004, 0x2005, 0x2006, 0x2007, 0x2008, 0x2009, 0x200A,
    0x2028, 0x2029, 0x202F, 0x205F, 0x3000}

  lemma WhitespaceIs(c: char)
    ensures IsWhitespace(c) <==> c as int in WHITE_SPACE
  {
  }

  predicate IsSolid(s: string) {
    forall i :: 0 <= i < |s| ==> !IsWhitespace(s[i])
  }

  predicate IsWord(s: string) {
    s != "" && IsSolid(s)
  }

  /** The number of characters in front of the first whitespace. */
  function LeadLength(s: string): (n: nat)
    ensures n <= |s|
  {
    if s == "" || IsWhitespace(s[0]) then 0 else 1 + LeadLength(s[1..])
  }

  lemma {:induction false} LeadIs(s: string)
    ensures IsSolid(s[..LeadLength(s)])
    ensures LeadLength(s) < |s| ==> IsWhitespace(s[LeadLength(s)])
  {
    if s != "" && !IsWhitespace(s[0]) {
      LeadIs(s[1..]);
      assert s[..LeadLength(s)] == [s[0]] + s[1..][..LeadLength(s[1..])];
    }
  }

  function Words(s: string): (words: seq<string>)
    ensures forall w :: w in words ==> IsWord(w)
    decreases |s|
  {
    if s == "" then []
    else if IsWhitespace(s[0]) then Words(s[1..])
    else
      LeadIs(s);
      [s[..LeadLength(s)]] + Words(s[LeadLength(s)..])
  }

  lemma {:induction false} LeadOfConcat(a: string, ws: char, b: string)
    requires IsWhitespace(ws)
    ensures LeadLength(a + [ws] + b) == LeadLength(a)
  {
    if a == "" {
      assert (a + [ws] + b)[0] == ws;
    } else if !IsWhitespace(a[0]) {
      LeadOfConcat(a[1..], ws, b);
      assert (a + [ws] + b)[1..] == a[1..] + [ws] + b;
    }
  }

  /** Any one whitespace character separates words, and separates nothing else. */
  lemma {:induction false} WordsOfConcat(a: string, ws: char, b: string)
    requires IsWhitespace(ws)
    ensures Words(a + [ws] + b) == Words(a) + Words(b)
    decreases |a|
  {
    var s := a + [ws] + b;
    if a == "" {
      assert s[0] == ws && s[1..] == b;
    } else if IsWhitespace(a[0]) {
      WordsOfConcat(a[1..], ws, b);
      assert s[1..] == a[1..] + [ws] + b;
    } else {
      var n := LeadLength(a);
      assert n > 0;
      LeadOfConcat(a, ws, b);
      WordsOfConcat(a[n..], ws, b);
      assert s[..n] == a[..n];
      assert s[n..] == a[n..] + [ws] + b;
    }
  }

  /** A word is its own only word. */
  lemma WordsOfWord(w: string)
    requires IsWord(w)
    ensures Words(w) == [w]
  {
    var n := LeadLength(w);
    LeadIs(w);
    assert n == |w|;
    assert w[..n] == w && w[n..] == "";
    assert !IsWhitespace(w[0]);
  }

  // ---- Pieces ----

  predicate StartsWithArrow(s: string) {
    "->" <= s
  }

  predicate ArrowFree(s: string) {
    forall i :: 0 <= i <= |s| ==> !StartsWithArrow(s[i..])
  }

  /** The pieces between the arrows, read from the left. */
  function Pieces(s: string): (pieces: seq<string>)
    ensures |pieces| > 0
    decreases |s|
  {
    if s == "" then [""]
    else if StartsWithArrow(s) then [""] + Pieces(s[2..])
    else
      var rest := Pieces(s[1..]);
      [[s[0]] + rest[0]] + rest[1..]
  }

  function Join(pieces: seq<string>): string
    requires |pieces| > 0
  {
    if |pieces| == 1 then pieces[0] else pieces[0] + "->" + Join(pieces[1..])
  }

  lemma ArrowFreeCons(c: char, s: string)
    ensures ArrowFree([c] + s) <==> ArrowFree(s) && !StartsWithArrow([c] + s)
  {
    var t := [c] + s;
    assert t[0..] == t;
    forall i | 0 <= i <= |s| ensures t[i + 1..] == s[i..] {
    }
    if ArrowFree(t) {
      forall i | 0 <= i <= |s| ensures !StartsWithArrow(s[i..]) {
        assert s[i..] == t[i + 1..];
      }
    }
    if ArrowFree(s) && !StartsWithArrow(t) {
      forall i | 0 <= i <= |t| ensures !StartsWithArrow(t[i..]) {
        if i > 0 {
          assert t[i..] == s[i - 1..];
        }
      }
    }
  }

  lemma JoinOfOne(piece: string)
    ensures Join([piece]) == piece
  {
  }

  lemma JoinOfMore(head: string, rest: seq<string>)
    requires |rest| > 0
    ensures Join([head] + rest) == head + "->" + Join(rest)
  {
    assert ([head] + rest)[1..] == rest;
  }

  lemma JoinOfExtended(c: char, head: string, rest: seq<string>)
    ensures Join([[c] + head] + rest) == [c] + Join([head] + rest)
  {
    hide Join;
    if rest == [] {
      JoinOfOne(head);
      JoinOfOne([c] + head);
      assert [head] + rest == [head] && [[c] + head] + rest == [[c] + head];
    } else {
      JoinOfMore([c] + head, rest);
      JoinOfMore(head, rest);
    }
  }

  lemma JoinStartsWithHead(head: string, rest: seq<string>)
    ensures head <= Join([head] + rest)
  {
    hide Join;
    if rest == [] {
      JoinOfOne(head);
      assert [head] + rest == [head];
    } else {
      JoinOfMore(head, rest);
    }
  }

  /** The pieces put together again are the text, and no arrow is left inside one. */
  lemma {:induction false} JoinOfPieces(s: string)
    ensures Join(Pieces(s)) == s
    ensures forall p :: p in Pieces(s) ==> ArrowFree(p)
    decreases |s|
  {
    hide Join;
    if s == "" {
      JoinOfOne("");
      assert Pieces(s) == [""];
    } else if StartsWithArrow(s) {
      JoinOfPieces(s[2..]);
      JoinOfMore("", Pieces(s[2..]));
      assert s == "->" + s[2..];
    } else {
      var rest := Pieces(s[1..]);
      JoinOfPieces(s[1..]);
      JoinOfExtended(s[0], rest[0], rest[1..]);
      JoinStartsWithHead(rest[0], rest[1..]);
      assert rest == [rest[0]] + rest[1..];
      assert s == [s[0]] + s[1..];
      ArrowFreeCons(s[0], rest[0]);
    }
  }

  /** No arrow can begin in a piece and end in the separator behind it. */
  lemma {:induction false} PiecesOfConcat(head: string, tail: string)
    requires ArrowFree(head)
    ensures Pieces(head + "->" + tail) == [head] + Pieces(tail)
    decreases |head|
  {
    var s := head + "->" + tail;
    if head == "" {
      assert s[2..] == tail;
    } else {
      assert [head[0]] + head[1..] == head;
      ArrowFreeCons(head[0], head[1..]);
      assert s[1..] == head[1..] + "->" + tail;
      PiecesOfConcat(head[1..], tail);
      assert !StartsWithArrow(s) by {
        if |head| == 1 {
          assert s[1] == '-';
        } else {
          assert s[0] == head[0] && s[1] == head[1];
        }
      }
    }
  }

  lemma {:induction false} PiecesOfPiece(s: string)
    requires ArrowFree(s)
    ensures Pieces(s) == [s]
  {
    if s != "" {
      assert s[0..] == s;
      assert [s[0]] + s[1..] == s;
      ArrowFreeCons(s[0], s[1..]);
      PiecesOfPiece(s[1..]);
    }
  }

  /** Arrow-free pieces are recovered, so Pieces is the only way to read a text as pieces. */
  lemma {:induction false} PiecesOfJoin(pieces: seq<string>)
    requires |pieces| > 0
    requires forall p :: p in pieces ==> ArrowFree(p)
    ensures Pieces(Join(pieces)) == pieces
  {
    if |pieces| == 1 {
      PiecesOfPiece(pieces[0]);
    } else {
      PiecesOfConcat(pieces[0], Join(pieces[1..]));
      PiecesOfJoin(pieces[1..]);
    }
  }

  // ---- Commands ----

  function ParseGet(text: string): Result<Command> {
    var pieces := Pieces(text);
    if |pieces| < 2 then Err(InvalidCommand) else Ok(GetFile(pieces[0], pieces[1]))
  }

  function ParseWords(words: seq<string>): Result<Command> {
    if words == [] then Err(InvalidCommand)
    else if words[0] == "register" then
      if |words| < 2 then Err(InvalidCommand) else Ok(Register(words[1]))
    else if words[0] == "ls_peers" then Ok(ListPeers)
    else if "ls@" <= words[0] then Ok(ListFiles(words[0][3..]))
    else if "get@" <= words[0] then ParseGet(words[0][4..])
    else Err(InvalidCommand)
  }

  function Parse(s: string): Result<Command> {
    ParseWords(Words(s))
  }

  /** The documented syntax of a command. */
  function Print(c: Command): string {
    match c
    case Register(userName) => "register " + userName
    case ListPeers => "ls_peers"
    case ListFiles(userName) => "ls@" + userName
    case GetFile(userName, fileName) => "get@" + userName + "->" + fileName
  }

  /** The commands that the grammar can express. */
  predicate WellFormed(c: Command) {
    match c
    case Register(userName) => IsWord(userName)
    case ListPeers => true
    case ListFiles(userName) => IsSolid(userName)
    case GetFile(userName, fileName) =>
      IsSolid(userName) && IsSolid(fileName) && ArrowFree(userName) && ArrowFree(fileName)
  }

  lemma {:induction false} SolidPieces(s: string)
    requires IsSolid(s)
    ensures forall p :: p in Pieces(s) ==> IsSolid(p)
    decreases |s|
  {
    if s == "" {
      assert Pieces(s) == [""];
    } else if StartsWithArrow(s) {
      SolidPieces(s[2..]);
    } else {
      SolidPieces(s[1..]);
      var rest := Pieces(s[1..]);
      assert rest[0] in rest;
      assert Pieces(s) == [[s[0]] + rest[0]] + rest[1..];
    }
  }

  /** Every command that is read is one the grammar can express. */
  lemma ParsedIsWellFormed(s: string)
    ensures Parse(s).Ok? ==> WellFormed(Parse(s).value)
  {
    var words := Words(s);
    if words != [] && Parse(s).Ok? && Parse(s).value.GetFile? {
      assert IsWord(words[0]);
      var text := words[0][4..];
      SolidPieces(text);
      JoinOfPieces(text);
      assert Pieces(text)[0] in Pieces(text) && Pieces(text)[1] in Pieces(text);
    } else if words != [] && Parse(s).Ok? {
      assert IsWord(words[0]);
      if words[0] == "register" {
        assert words[1] in words;
      }
    }
  }

  lemma ParseGetWord(userName: string, file: string)
    requires IsSolid(userName) && IsSolid(file) && ArrowFree(userName)
    ensures Parse("get@" + userName + "->" + file) == Ok(GetFile(userName, Pieces(file)[0]))
  {
    hide Words, LeadLength, Pieces, ArrowFree;
    var text := userName + "->" + file;
    var word := "get@" + text;
    assert "get@" + userName + "->" + file == word;
    WordsOfWord(word);
    assert word[0] == 'g';
    assert word[4..] == text;
    PiecesOfConcat(userName, file);
  }

  lemma ParsePrint(c: Command)
    requires WellFormed(c)
    ensures Parse(Print(c)) == Ok(c)
  {
    hide Words, LeadLength, Pieces, ArrowFree;
    match c
    case Register(userName) =>
      assert Print(c) == "register" + [' '] + userName;
      WordsOfConcat("register", ' ', userName);
      WordsOfWord("register");
      WordsOfWord(userName);
    case ListPeers =>
      WordsOfWord("ls_peers");
    case ListFiles(userName) =>
      var word := "ls@" + userName;
      WordsOfWord(word);
      assert word[0] == 'l' && word[2] == '@' && word[3..] == userName;
    case GetFile(userName, fileName) =>
      ParseGetWord(userName, fileName);
      PiecesOfPiece(fileName);
  }

  /** A command survives being written and read exactly when the grammar can express it. */
  lemma RoundTripIff(c: Command)
    ensures Parse(Print(c)) == Ok(c) <==> WellFormed(c)
  {
    if WellFormed(c) {
      ParsePrint(c);
    } else {
      ParsedIsWellFormed(Print(c));
    }
  }

  /** Writing what was read and reading it again gives the same command. */
  lemma Normalising(s: string, c: Command)
    requires Parse(s) == Ok(c)
    ensures Parse(Print(c)) == Ok(c)
  {
    ParsedIsWellFormed(s);
    ParsePrint(c);
  }

  /** Text behind a complete command, and white space in front of it, changes nothing. */
  lemma SurroundingsAreIgnored(s: string, ws: char, more: string)
    requires IsWhitespace(ws)
    ensures Parse(s).Ok? ==> Parse(s + [ws] + more) == Parse(s)
    ensures Parse([ws] + s) == Parse(s)
  {
    WordsOfConcat(s, ws, more);
    WordsOfConcat("", ws, s);
    assert "" + [ws] + s == [ws] + s;
  }

  // ---- What is accepted ----

  /** The text says the command: in the documented syntax at its beginning, or, for a file, with more
      pieces behind the file name. */
  predicate Says(s: string, c: Command) {
    var words := Words(s);
    || Words(Print(c)) <= words
    || (c.GetFile? && |words| > 0 && Print(c) + "->" <= words[0])
  }

  lemma WordsOfPrint(c: Command)
    requires WellFormed(c)
    ensures Words(Print(c)) == if c.Register? then ["register", c.userName] else [Print(c)]
  {
    hide Words, LeadLength, Pieces, ArrowFree;
    match c
    case Register(userName) =>
      assert Print(c) == "register" + [' '] + userName;
      WordsOfConcat("register", ' ', userName);
      WordsOfWord("register");
      WordsOfWord(userName);
    case ListPeers => WordsOfWord("ls_peers");
    case ListFiles(userName) => WordsOfWord("ls@" + userName);
    case GetFile(userName, fileName) => WordsOfWord("get@" + userName + "->" + fileName);
  }

  /** What is read of a text is said by it. */
  lemma ParsedIsSaid(s: string)
    ensures Parse(s).Ok? ==> Says(s, Parse(s).value)
  {
    hide Words, Pieces, Print, WellFormed;
    if Parse(s).Ok? {
      ParsedIsWellFormed(s);
      WordsOfPrint(Parse(s).value);
      ReadIsSaid(s, Words(s));
    }
  }

  lemma ReadIsSaid(s: string, words: seq<string>)
    requires words == Words(s) && ParseWords(words).Ok?
    requires var c := ParseWords(words).value;
             Words(Print(c)) == if c.Register? then ["register", c.userName] else [Print(c)]
    ensures Says(s, ParseWords(words).value)
  {
    hide Words, Pieces;
    var c := ParseWords(words).value;
    match c
    case Register(userName) => assert words[..2] == ["register", userName];
    case ListPeers => assert words[..1] == ["ls_peers"];
    case ListFiles(userName) =>
      assert words[0] == "ls@" + userName;
      assert words[..1] == [Print(c)];
    case GetFile(userName, fileName) =>
      var text := words[0][4..];
      assert words[0] == "get@" + text;
      FirstPieces(text);
      assert |Pieces(text)| == 2 ==> words[0] == Print(c) && words[..1] == [Print(c)];
  }

  /** A text with two pieces is made of them; one with more begins with them. */
  lemma FirstPieces(text: string)
    requires |Pieces(text)| >= 2
    ensures var pieces := Pieces(text);
            var first := pieces[0] + "->" + pieces[1];
            if |pieces| == 2 then text == first else first + "->" <= text
  {
    hide Pieces, Join;
    var pieces := Pieces(text);
    JoinOfPieces(text);
    assert pieces == [pieces[0]] + pieces[1..];
    JoinOfMore(pieces[0], pieces[1..]);
    if |pieces| == 2 {
      assert pieces[1..] == [pieces[1]];
      JoinOfOne(pieces[1]);
    } else {
      assert pieces[1..] == [pieces[1]] + pieces[2..];
      JoinOfMore(pieces[1], pieces[2..]);
    }
  }

  /** What a text says in the grammar is what is read of it. */
  lemma SaidIsParsed(s: string, c: Command)
    requires WellFormed(c) && Says(s, c)
    ensures Parse(s) == Ok(c)
  {
    hide Words, Pieces, LeadLength, ArrowFree;
    var words := Words(s);
    WordsOfPrint(c);
    ParsePrint(c);
    if Words(Print(c)) <= words {
      assert words[0] == Words(Print(c))[0];
      if c.Register? {
        assert words[1] == Words(Print(c))[1];
      }
    } else {
      var rest := words[0][|Print(c) + "->"|..];
      LongerIsParsed(words, c.userName, c.fileName, rest) by {
        assert words[0] == Print(c) + "->" + rest;
      }
    }
  }

  lemma LongerIsParsed(words: seq<string>, userName: string, fileName: string, rest: string)
    requires |words| > 0 && words[0] == "get@" + userName + "->" + fileName + "->" + rest
    requires ArrowFree(userName) && ArrowFree(fileName)
    ensures ParseWords(words) == Ok(GetFile(userName, fileName))
  {
    hide Pieces, ArrowFree;
    var text := userName + "->" + (fileName + "->" + rest);
    assert words[0] == "get@" + text;
    assert words[0][0] == 'g' && words[0][4..] == text;
    PiecesOfConcat(userName, fileName + "->" + rest);
    PiecesOfConcat(fileName, rest);
  }

  /** A command is read of exactly those texts that say it, and only if the grammar can express it. */
  lemma ParsesIff(s: string, c: Command)
    ensures Parse(s) == Ok(c) <==> WellFormed(c) && Says(s, c)
  {
    hide Words, Pieces, Says, WellFormed;
    if Parse(s) == Ok(c) {
      ParsedIsWellFormed(s);
      ParsedIsSaid(s);
    } else if WellFormed(c) && Says(s, c) {
      SaidIsParsed(s, c);
    }
  }

  /** A text is refused, as an invalid command and for no other reason, exactly if it says none. */
  lemma RefusedIff(s: string)
    ensures Parse(s) == Err(InvalidCommand) <==> forall c :: WellFormed(c) ==> !Says(s, c)
    ensures Parse(s).Err? ==> Parse(s).error == InvalidCommand
  {
    hide Words, Pieces, Says, WellFormed;
    forall c ensures Parse(s) == Ok(c) <==> WellFormed(c) && Says(s, c) {
      ParsesIff(s, c);
    }
  }

  /** A file name with an arrow in it is cut at the arrow, whatever follows. */
  lemma FileNameIsCutAtArrow(userName: string, fileName: string, more: string)
    requires WellFormed(GetFile(userName, fileName)) && IsSolid(more)
    ensures Parse(Print(GetFile(userName, fileName + "->" + more))) == Ok(GetFile(userName, fileName))
  {
    ParseGetWord(userName, fileName + "->" + more);
    PiecesOfConcat(fileName, more);
  }
}
