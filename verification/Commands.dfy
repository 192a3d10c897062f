/**
 The nine commands, their one-line text form (`serialize`) and the factory that
 builds them from tokens (`CommandFactory::parse`).
 */
module Commands {
  import opened Text

  /** Seconds an entry lives unless the client says otherwise: 24 hours. */
  const DEFAULT_TTL: Int64 := 86400

  datatype Command =
    | Set(key: string, value: string, ttl: Int64)
    | Get(key: string)
    | Del(key: string)
    | Exists(key: string)
    | Ping
    | LPush(key: string, value: string, ttl: Int64)
    | LRange(key: string, start: Int64, stop: Int64)
    | HSet(key: string, field: string, value: string, ttl: Int64)
    | HGet(key: string, field: string)

  /** The text that goes to the log; LPUSH and HSET leave their TTL out. */
  function Serialize(c: Command): string {
    match c
    case Set(k, v, ttl) => "SET " + k + " " + v + " " + ToString(ttl)
    case Get(k) => "GET " + k
    case Del(k) => "DEL " + k
    case Exists(k) => "EXISTS " + k
    case Ping => "PING"
    case LPush(k, v, _) => "LPUSH " + k + " " + v
    case LRange(k, s, e) => "LRANGE " + k + " " + ToString(s) + " " + ToString(e)
    case HSet(k, f, v, _) => "HSET " + k + " " + f + " " + v
    case HGet(k, f) => "HGET " + k + " " + f
  }

  /** `std::toupper` in the C locale. */
  function Upper(c: char): char {
    if 'a' <= c <= 'z' then (c as int - 32) as char else c
  }

  function ToUpper(s: string): string {
    seq(|s|, i requires 0 <= i < |s| => Upper(s[i]))
  }

  /** Letters of the alphabet lose 32, everything else stays. */
  lemma UpperIs(c: char)
    ensures Upper(c) as int == if 97 <= c as int <= 122 then c as int - 32 else c as int
  {
  }

  function Parse(tokens: seq<string>): Option<Command> {
    if tokens == [] then None
    else
      var cmd := ToUpper(tokens[0]);
      var n := |tokens|;
      if cmd == "SET" && n >= 3 then
        var ttl := if n >= 4 && Stoll(tokens[3]).Some? then Stoll(tokens[3]).value else DEFAULT_TTL;
        Some(Set(tokens[1], tokens[2], ttl))
      else if cmd == "GET" && n >= 2 then Some(Get(tokens[1]))
      else if cmd == "DEL" && n >= 2 then Some(Del(tokens[1]))
      else if cmd == "EXISTS" && n >= 2 then Some(Exists(tokens[1]))
      else if cmd == "PING" then Some(Ping)
      else if cmd == "LPUSH" && n >= 3 then Some(LPush(tokens[1], tokens[2], DEFAULT_TTL))
      else if cmd == "LRANGE" && n >= 4 then
        match (Stoll(tokens[2]), Stoll(tokens[3]))
        case (Some(s), Some(e)) => Some(LRange(tokens[1], s, e))
        case _ => None
      else if cmd == "HSET" && n >= 4 then Some(HSet(tokens[1], tokens[2], tokens[3], DEFAULT_TTL))
      else if cmd == "HGET" && n >= 3 then Some(HGet(tokens[1], tokens[2]))
      else None
  }

  /** What a line of text asks for. */
  function ParseLine(line: string): Option<Command> {
    Parse(Tokens(line))
  }

  /** A command the factory can have built from a line: word arguments, default TTL where none is given. */
  predicate FactoryMade(c: Command) {
    match c
    case Set(k, v, _) => IsWord(k) && IsWord(v)
    case Get(k) => IsWord(k)
    case Del(k) => IsWord(k)
    case Exists(k) => IsWord(k)
    case Ping => true
    case LPush(k, v, ttl) => IsWord(k) && IsWord(v) && ttl == DEFAULT_TTL
    case LRange(k, _, _) => IsWord(k)
    case HSet(k, f, v, ttl) => IsWord(k) && IsWord(f) && IsWord(v) && ttl == DEFAULT_TTL
    case HGet(k, f) => IsWord(k) && IsWord(f)
  }

  /** The words of the text form. */
  function Words(c: Command): seq<string> {
    match c
    case Set(k, v, ttl) => ["SET", k, v, ToString(ttl)]
    case Get(k) => ["GET", k]
    case Del(k) => ["DEL", k]
    case Exists(k) => ["EXISTS", k]
    case Ping => ["PING"]
    case LPush(k, v, _) => ["LPUSH", k, v]
    case LRange(k, s, e) => ["LRANGE", k, ToString(s), ToString(e)]
    case HSet(k, f, v, _) => ["HSET", k, f, v]
    case HGet(k, f) => ["HGET", k, f]
  }

  lemma JoinTwo(a: string, b: string)
    ensures Join([a, b]) == a + " " + b
  {
    assert [a, b][1..] == [b];
  }

  lemma JoinThree(a: string, b: string, c: string)
    ensures Join([a, b, c]) == a + " " + b + " " + c
  {
    assert [a, b, c][1..] == [b, c];
    JoinTwo(b, c);
  }

  lemma JoinFour(a: string, b: string, c: string, d: string)
    ensures Join([a, b, c, d]) == a + " " + b + " " + c + " " + d
  {
    assert [a, b, c, d][1..] == [b, c, d];
    JoinThree(b, c, d);
  }

  lemma SerializeIsJoin(c: Command)
    ensures Serialize(c) == Join(Words(c))
  {
    match c
    case Set(k, v, ttl) =>
      JoinFour("SET", k, v, ToString(ttl));
      assert "SET" + " " == "SET ";
    case Get(k) =>
      JoinTwo("GET", k);
      assert "GET" + " " == "GET ";
    case Del(k) =>
      JoinTwo("DEL", k);
      assert "DEL" + " " == "DEL ";
    case Exists(k) =>
      JoinTwo("EXISTS", k);
      assert "EXISTS" + " " == "EXISTS ";
    case Ping =>
    case LPush(k, v, _) =>
      JoinThree("LPUSH", k, v);
      assert "LPUSH" + " " == "LPUSH ";
    case LRange(k, s, e) =>
      JoinFour("LRANGE", k, ToString(s), ToString(e));
      assert "LRANGE" + " " == "LRANGE ";
    case HSet(k, f, v, _) =>
      JoinFour("HSET", k, f, v);
      assert "HSET" + " " == "HSET ";
    case HGet(k, f) =>
      JoinThree("HGET", k, f);
      assert "HGET" + " " == "HGET ";
  }

  lemma NamesAreUpperCase()
    ensures forall name | name in ["SET", "GET", "DEL", "EXISTS", "PING", "LPUSH", "LRANGE", "HSET", "HGET"] ::
              ToUpper(name) == name && IsWord(name)
  {
  }

  lemma NamesDiffer()
    ensures "GET"[0] != "SET"[0] && "DEL"[0] != "SET"[0] && "DEL"[0] != "GET"[0]
    ensures "LPUSH"[0] != "SET"[0] && "HSET"[0] != "PING"[0] && "HGET"[0] != "PING"[0] && "HGET"[1] != "HSET"[1]
  {
  }

  lemma ParseOfSet(k: string, v: string, ttl: Int64)
    ensures Parse(Words(Set(k, v, ttl))) == Some(Set(k, v, ttl))
  {
    NamesAreUpperCase();
    StollOfToString(ttl);
    hide Stoll, ToString, ToUpper;
    assert ToUpper("SET") == "SET";
  }

  lemma ParseOfLRange(k: string, start: Int64, stop: Int64)
    ensures Parse(Words(LRange(k, start, stop))) == Some(LRange(k, start, stop))
  {
    NamesAreUpperCase();
    StollOfToString(start);
    StollOfToString(stop);
    hide Stoll, ToString, ToUpper;
    assert ToUpper("LRANGE") == "LRANGE";
  }

  lemma ParseOfWords(c: Command)
    requires FactoryMade(c)
    ensures Parse(Words(c)) == Some(c)
  {
    if c.Set? {
      ParseOfSet(c.key, c.value, c.ttl);
    } else if c.LRange? {
      ParseOfLRange(c.key, c.start, c.stop);
    } else {
      NamesAreUpperCase();
      NamesDiffer();
      var name := Words(c)[0];
      assert ToUpper(name) == name;
      hide Stoll, ToString, ToUpper, IsWord;
    }
  }

  lemma WordsAreWords(c: Command)
    requires FactoryMade(c)
    ensures forall w :: w in Words(c) ==> IsWord(w)
  {
    NamesAreUpperCase();
    if c.Set? {
      ToStringIsWord(c.ttl);
    } else if c.LRange? {
      ToStringIsWord(c.start);
      ToStringIsWord(c.stop);
    }
  }

  /** Whatever line comes in, the command built from it has word arguments. */
  lemma ParsedIsFactoryMade(line: string)
    ensures ParseLine(line).Some? ==> FactoryMade(ParseLine(line).value)
  {
    TokensAreWords(line);
  }

  /**
   Printing, tokenising and parsing gives the command back exactly when the factory
   could have built it, 64-bit numbers down to INT64_MIN included.
   */
  lemma RoundTrip(c: Command)
    ensures ParseLine(Serialize(c)) == Some(c) <==> FactoryMade(c)
  {
    if FactoryMade(c) {
      SerializeIsJoin(c);
      ParseOfWords(c);
      WordsAreWords(c);
      TokensOfJoin(Words(c));
    } else {
      ParsedIsFactoryMade(Serialize(c));
    }
  }

  /** A logged command is a single non-empty line of the file, and it ends with the end of a word. */
  lemma SerializedIsOneLine(c: Command)
    requires FactoryMade(c)
    ensures Serialize(c) != "" && forall i :: 0 <= i < |Serialize(c)| ==> Serialize(c)[i] != '\n'
    ensures !IsSpace(Serialize(c)[|Serialize(c)| - 1])
  {
    WordsAreWords(c);
    SerializeIsJoin(c);
    hide Serialize;
    JoinIsOneLine(Words(c));
  }

  lemma {:induction false} JoinIsOneLine(words: seq<string>)
    requires forall w :: w in words ==> IsWord(w)
    ensures words != [] ==> Join(words) != "" && !IsSpace(Join(words)[|Join(words)| - 1])
    ensures forall i :: 0 <= i < |Join(words)| ==> Join(words)[i] != '\n'
  {
    if |words| == 1 {
      assert IsWord(words[0]);
    } else if words != [] {
      assert IsWord(words[0]);
      JoinIsOneLine(words[1..]);
    }
  }

  // ----- What clients may type

  lemma LineOfWords(words: seq<string>)
    requires forall w :: w in words ==> IsWord(w)
    ensures ParseLine(Join(words)) == Parse(words)
  {
    TokensOfJoin(words);
  }

  lemma LowerCaseNames()
    ensures ToUpper("set") == "SET" && ToUpper("get") == "GET" && ToUpper("del") == "DEL"
    ensures ToUpper("exists") == "EXISTS" && ToUpper("Ping") == "PING" && ToUpper("lpush") == "LPUSH"
    ensures ToUpper("lrange") == "LRANGE" && ToUpper("hset") == "HSET" && ToUpper("hGet") == "HGET"
  {
  }

  /** In lower or mixed case, with what is too much left out of account. */
  lemma TypedCommands(k: string, f: string, v: string, more: seq<string>)
    ensures Parse(["get", k] + more) == Some(Get(k)) && Parse(["del", k] + more) == Some(Del(k))
    ensures Parse(["exists", k] + more) == Some(Exists(k)) && Parse(["Ping"] + more) == Some(Ping)
    ensures Parse(["lpush", k, v] + more) == Some(LPush(k, v, 86400))
    ensures Parse(["hset", k, f, v] + more) == Some(HSet(k, f, v, 86400))
    ensures Parse(["hGet", k, f] + more) == Some(HGet(k, f))
    ensures Parse(["set", k, v]) == Some(Set(k, v, 86400))
  {
    LowerCaseNames();
    NamesDiffer();
    hide ToUpper, Stoll;
  }

  /** Too few words, or a name that is none of the nine: no command. */
  lemma NoCommands(k: string, v: string, f: string)
    ensures Parse([]) == None && Parse(["SET"]) == None && Parse(["SET", k]) == None && Parse(["GET"]) == None
    ensures Parse(["DEL"]) == None && Parse(["EXISTS"]) == None && Parse(["LPUSH", k]) == None
    ensures Parse(["LRANGE", k, v]) == None && Parse(["HSET", k, f]) == None && Parse(["HGET", k]) == None
  {
    NamesAreUpperCase();
    NamesDiffer();
    hide ToUpper, Stoll, IsWord;
    assert ToUpper("SET") == "SET" && ToUpper("GET") == "GET" && ToUpper("DEL") == "DEL";
    assert ToUpper("EXISTS") == "EXISTS" && ToUpper("LPUSH") == "LPUSH" && ToUpper("LRANGE") == "LRANGE";
    assert ToUpper("HSET") == "HSET" && ToUpper("HGET") == "HGET";
  }

  lemma UnknownName(tokens: seq<string>)
    requires tokens != []
    requires ToUpper(tokens[0]) !in {"SET", "GET", "DEL", "EXISTS", "PING", "LPUSH", "LRANGE", "HSET", "HGET"}
    ensures Parse(tokens) == None
  {
  }

  /** LRANGE needs two readable 64-bit numbers. */
  lemma TypedRange(k: string, a: string, b: string, more: seq<string>)
    ensures Parse(["lrange", k, a, b] + more) ==
            if Stoll(a).Some? && Stoll(b).Some? then Some(LRange(k, Stoll(a).value, Stoll(b).value)) else None
  {
    LowerCaseNames();
    NamesDiffer();
    hide ToUpper, Stoll;
  }

  /**
   A SET without a TTL, and one whose TTL is no readable 64-bit number, lives for 86400 seconds;
   a readable one is taken as it is.
   */
  lemma TtlOfSet(k: string, v: string, w: string, more: seq<string>)
    ensures Parse(["SET", k, v]) == Some(Set(k, v, 86400))
    ensures Parse(["SET", k, v, w] + more) ==
            if Stoll(w).Some? then Some(Set(k, v, Stoll(w).value)) else Some(Set(k, v, 86400))
  {
    NamesAreUpperCase();
    hide ToUpper, Stoll, IsWord;
    assert ToUpper("SET") == "SET";
  }

  lemma ReadableTtl()
    ensures "86400" == ToString(86400) && IsWord("86400") && Stoll("86400") == Some(86400)
  {
    PrintedNumbers();
    StollOfToString(86400);
    ToStringIsWord(86400);
    hide Stoll, ToString;
  }

  lemma SetLine(k: string, v: string)
    requires IsWord(k) && IsWord(v)
    ensures ParseLine("SET " + k + " " + v) == Some(Set(k, v, 86400))
  {
    NamesAreUpperCase();
    TtlOfSet(k, v, "", []);
    hide Parse, ParseLine, Stoll, IsWord, ToUpper;
    JoinThree("SET", k, v);
    assert "SET" + " " == "SET ";
    LineOfWords(["SET", k, v]);
  }

  lemma SetLineWithTtl(k: string, v: string)
    requires IsWord(k) && IsWord(v)
    ensures ParseLine("SET " + k + " " + v + " 86400") == Some(Set(k, v, 86400))
  {
    NamesAreUpperCase();
    ReadableTtl();
    TtlOfSet(k, v, "86400", []);
    hide Parse, ParseLine, Stoll, ToString, IsWord, ToUpper;
    JoinFour("SET", k, v, "86400");
    LineOfWords(["SET", k, v, "86400"]);
    assert ["SET", k, v, "86400"] + [] == ["SET", k, v, "86400"];
    assert "SET " + k + " " + v + " 86400" == "SET" + " " + k + " " + v + " " + "86400";
  }

  /** As lines: with the default TTL, without a TTL, and with a word in its place, a SET is the same command. */
  lemma SetLines(k: string, v: string, w: string, more: seq<string>)
    requires IsWord(k) && IsWord(v) && IsWord(w) && Stoll(w) == None && forall x :: x in more ==> IsWord(x)
    ensures ParseLine("SET " + k + " " + v) == Some(Set(k, v, 86400))
    ensures ParseLine("SET " + k + " " + v + " 86400") == Some(Set(k, v, 86400))
    ensures ParseLine(Join(["SET", k, v, w] + more)) == Some(Set(k, v, 86400))
  {
    SetLine(k, v);
    SetLineWithTtl(k, v);
    TtlOfSet(k, v, w, more);
    NamesAreUpperCase();
    hide Parse, ParseLine, Stoll, ToString, IsWord, ToUpper;
    LineOfWords(["SET", k, v, w] + more);
  }
}
