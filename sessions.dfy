/**
 * The server's session registry and per-session word pool (the `SessionManager`
 * class of src/game/session_manager.py).
 *
 * The JSON files the manager reads and writes are modelled as state of the
 * manager: the shared master word list (`words.json`, possibly missing), one
 * used-words list per session directory (`sessions/<code>/used_words.json`, a
 * missing file being a missing key) and the set of session directories.
 */
module Sessions {
  import opened Wrappers
  import opened Lists

  /** The HTTP errors the manager raises. */
  datatype HttpError = Forbidden | NotFound {
    function StatusCode(): int {
      match this
      case Forbidden => 403
      case NotFound => 404
    }
    function Detail(): string {
      match this
      case Forbidden => "Invalid API key"
      case NotFound => "Session not found"
    }
  }

  /** The key used when the environment does not set `INTESA_API_KEY`. */
  const DefaultApiKey := "test-key-123"
  /** The round timer, in seconds, of a fresh session. */
  const DefaultTimer := 60
  /** Session codes are cut to this many characters. */
  const MaxCodeLength := 20
  /** How many times a colliding session code is regenerated. */
  const MaxCodeAttempts := 10

  datatype Stats = Stats(correct: int, incorrect: int, totalPoints: int)

  /** A snapshot of a session record, as it is serialised to clients. */
  datatype SessionData = SessionData(
    uuid: string,
    state: string,
    connectedClients: seq<string>,
    timer: int,
    stats: Stats,
    currentWord: Option<string>,
    passCount: int,
    needNewWord: bool)

  /** The record of fresh (or rehydrated) session `code`. */
  function LobbyRecord(code: string): SessionData {
    SessionData(code, "lobby", [], DefaultTimer, Stats(0, 0, 0), None, 0, false)
  }

  /**
   * A session record. It is a mutable dictionary in the server, shared by
   * reference between the session manager and the connection manager.
   */
  class Session {
    const uuid: string
    var state: string
    var connectedClients: seq<string>
    var timer: int
    var stats: Stats
    var currentWord: Option<string>
    var passCount: int
    var needNewWord: bool

    function Snapshot(): (d: SessionData)
      reads this
      ensures d.uuid == uuid && d.connectedClients == connectedClients && d.currentWord == currentWord
    {
      SessionData(uuid, state, connectedClients, timer, stats, currentWord, passCount, needNewWord)
    }

    /** The initial record of session `code`. */
    constructor Lobby(code: string)
      ensures Snapshot() == LobbyRecord(code)
    {
      uuid := code;
      state := "lobby";
      connectedClients := [];
      timer := DefaultTimer;
      stats := Stats(0, 0, 0);
      currentWord := None;
      passCount := 0;
      needNewWord := false;
    }
  }

  // ---------------------------------------------------------------------------
  // Session codes
  // ---------------------------------------------------------------------------

  predicate IsUpper(c: char) { 'A' <= c <= 'Z' }

  /** Alphanumeric characters (ASCII letters and digits). */
  predicate IsAlnum(c: char) { 'a' <= c <= 'z' || IsUpper(c) || '0' <= c <= '9' }

  /** The characters a cleaned session code may contain. */
  predicate IsCodeChar(c: char) { 'a' <= c <= 'z' || '0' <= c <= '9' || c == '-' }

  function LowerChar(c: char): char {
    if IsUpper(c) then (c as int + 32) as char else c
  }

  /** `str.lower()`, on ASCII letters. */
  function Lower(s: string): string {
    seq(|s|, i requires 0 <= i < |s| => LowerChar(s[i]))
  }

  /** `str.replace(' ', '-')`. */
  function SpacesToDashes(s: string): string {
    seq(|s|, i requires 0 <= i < |s| => if s[i] == ' ' then '-' else s[i])
  }

  /** `''.join(c for c in s if c.isalnum() or c == '-')`: the kept characters, in order. */
  function KeepCodeChars(s: string): (r: string)
    ensures |r| <= |s|
    ensures forall i :: 0 <= i < |r| ==> r[i] in s && (IsAlnum(r[i]) || r[i] == '-')
    ensures (forall i :: 0 <= i < |s| ==> IsAlnum(s[i]) || s[i] == '-') ==> r == s
  {
    if s == [] then ""
    else if IsAlnum(s[0]) || s[0] == '-' then [s[0]] + KeepCodeChars(s[1..])
    else KeepCodeChars(s[1..])
  }

  /** Every letter, digit and '-' of the input is kept, as often as it occurs; nothing else is. */
  lemma {:induction false} KeepCodeCharsCount(s: string, c: char)
    ensures multiset(KeepCodeChars(s))[c] == if IsAlnum(c) || c == '-' then multiset(s)[c] else 0
  {
    if s != [] {
      assert s == [s[0]] + s[1..];
      KeepCodeCharsCount(s[1..], c);
    }
  }

  /** One step of the filter: the first character survives exactly when it is allowed. */
  lemma KeepCodeCharsCons(c: char, t: string)
    ensures KeepCodeChars([c] + t) == (if IsAlnum(c) || c == '-' then [c] else []) + KeepCodeChars(t)
  {
    assert ([c] + t)[0] == c && ([c] + t)[1..] == t;
  }

  /** The filter keeps the input's order: it distributes over concatenation. */
  lemma {:induction false} KeepCodeCharsAppend(a: string, b: string)
    ensures KeepCodeChars(a + b) == KeepCodeChars(a) + KeepCodeChars(b)
  {
    if a == [] {
      assert a + b == b;
    } else {
      var c, t := a[0], a[1..];
      var kept: string := if IsAlnum(c) || c == '-' then [c] else [];
      assert a == [c] + t && a + b == [c] + (t + b);
      calc {
        KeepCodeChars(a + b);
        { KeepCodeCharsCons(c, t + b); }
        kept + KeepCodeChars(t + b);
        { KeepCodeCharsAppend(t, b); }
        kept + (KeepCodeChars(t) + KeepCodeChars(b));
        (kept + KeepCodeChars(t)) + KeepCodeChars(b);
        { KeepCodeCharsCons(c, t); }
        KeepCodeChars(a) + KeepCodeChars(b);
      }
    }
  }

  /** Python's `s[:n]`. */
  function Take(s: string, n: nat): string {
    if |s| <= n then s else s[..n]
  }

  /** The session code derived from one Faker slug. */
  function SessionCode(slug: string): (code: string)
    ensures |code| <= MaxCodeLength
    ensures forall i :: 0 <= i < |code| ==> IsCodeChar(code[i])
  {
    var cleaned := KeepCodeChars(SpacesToDashes(Lower(slug)));
    assert forall c :: c in SpacesToDashes(Lower(slug)) ==> !IsUpper(c) by {
      forall c | c in SpacesToDashes(Lower(slug)) ensures !IsUpper(c) {
        var k :| 0 <= k < |slug| && SpacesToDashes(Lower(slug))[k] == c;
        assert Lower(slug)[k] == LowerChar(slug[k]);
      }
    }
    Take(cleaned, MaxCodeLength)
  }

  /** A string made only of code characters, at most `MaxCodeLength` long, is its own code. */
  lemma SessionCodeOfCode(s: string)
    requires |s| <= MaxCodeLength
    requires forall i :: 0 <= i < |s| ==> IsCodeChar(s[i])
    ensures SessionCode(s) == s
  {
    assert Lower(s) == s by {
      forall i | 0 <= i < |s| ensures Lower(s)[i] == s[i] {
        assert !IsUpper(s[i]);
      }
    }
    assert SpacesToDashes(s) == s;
    assert forall i :: 0 <= i < |s| ==> IsAlnum(s[i]) || s[i] == '-';
  }

  /** Cleaning a session code again gives the same code. */
  lemma SessionCodeIdempotent(slug: string)
    ensures SessionCode(SessionCode(slug)) == SessionCode(slug)
  {
    SessionCodeOfCode(SessionCode(slug));
  }

  /** A session code never contains '_', the separator of connection identifiers. */
  lemma SessionCodeHasNoUnderscore(slug: string)
    ensures '_' !in SessionCode(slug)
  {
    var code := SessionCode(slug);
    forall c | c in code ensures c != '_' {
      var k :| 0 <= k < |code| && code[k] == c;
      assert IsCodeChar(code[k]);
    }
  }

  // ---------------------------------------------------------------------------
  // Word pool
  // ---------------------------------------------------------------------------

  /** `[word for word in all if word not in used]`. */
  function Unused(all: seq<string>, used: seq<string>): (r: seq<string>)
    ensures |r| <= |all|
    ensures forall i :: 0 <= i < |r| ==> r[i] in all && r[i] !in used
    ensures forall w :: w in all && w !in used ==> w in r
  {
    if all == [] then []
    else if all[0] in used then Unused(all[1..], used)
    else [all[0]] + Unused(all[1..], used)
  }

  /** The filter keeps the master list's order: it distributes over concatenation. */
  lemma {:induction false} UnusedAppend(a: seq<string>, b: seq<string>, used: seq<string>)
    ensures Unused(a + b, used) == Unused(a, used) + Unused(b, used)
  {
    if a != [] {
      assert (a + b)[0] == a[0] && (a + b)[1..] == a[1..] + b;
      UnusedAppend(a[1..], b, used);
    } else {
      assert a + b == b;
    }
  }

  /** With nothing used, every word of the master list is available, duplicates and order included. */
  lemma {:induction false} UnusedNothingUsed(all: seq<string>)
    ensures Unused(all, []) == all
  {
    if all != [] {
      UnusedNothingUsed(all[1..]);
    }
  }

  /** Duplicates are kept: a word that is not used occurs as often as in the master list. */
  lemma {:induction false} UnusedCount(all: seq<string>, used: seq<string>, w: string)
    ensures multiset(Unused(all, used))[w] == if w in used then 0 else multiset(all)[w]
  {
    if all != [] {
      assert all == [all[0]] + all[1..];
      UnusedCount(all[1..], used, w);
    }
  }

  /** After a word is recorded as used it is no longer available, and nothing else changes. */
  lemma {:induction false} UnusedAfterAdd(all: seq<string>, used: seq<string>, w: string)
    ensures Unused(all, AddIfAbsent(used, w)) == Unused(Unused(all, used), [w])
  {
    if all != [] {
      UnusedAfterAdd(all[1..], used, w);
    }
  }

  // ---------------------------------------------------------------------------
  // The manager
  // ---------------------------------------------------------------------------

  class SessionManager {
    const apiKey: string
    var activeSessions: map<string, Session>
    /** `words.json`, when it exists. */
    var masterWords: Option<seq<string>>
    /** `sessions/<code>/used_words.json` of every session that has one. */
    var usedWords: map<string, seq<string>>
    /** The directories under `sessions/`. */
    var sessionDirs: set<string>

    /** Every active session has a directory and knows its own code. */
    predicate Valid()
      reads this
    {
      forall code :: code in activeSessions ==> code in sessionDirs && activeSessions[code].uuid == code
    }

    /**
     * The manager starts with no active session over the files already on disk;
     * the shared key is `INTESA_API_KEY`, or the default key when it is unset.
     */
    constructor (envApiKey: Option<string>, masterWords: Option<seq<string>>,
                 usedWords: map<string, seq<string>>, sessionDirs: set<string>)
      ensures Valid()
      ensures apiKey == envApiKey.GetOr(DefaultApiKey) && activeSessions == map[]
      ensures this.masterWords == masterWords && this.usedWords == usedWords
      ensures this.sessionDirs == sessionDirs
    {
      apiKey := envApiKey.GetOr(DefaultApiKey);
      activeSessions := map[];
      this.masterWords := masterWords;
      this.usedWords := usedWords;
      this.sessionDirs := sessionDirs;
    }

    /**
     * Generates a session code from successive slugs (`slugAt(i)` is the slug of
     * the i-th draw), drawing again while the code is taken, at most
     * `MaxCodeAttempts` more times. Uniqueness is not guaranteed: when every
     * draw collided the last code is returned anyway.
     */
    method GenerateSessionCode(slugAt: nat -> string) returns (code: string, attempts: nat)
      ensures attempts <= MaxCodeAttempts && code == SessionCode(slugAt(attempts))
      ensures code !in activeSessions || attempts == MaxCodeAttempts
      ensures forall i :: 0 <= i < attempts ==> SessionCode(slugAt(i)) in activeSessions
    {
      code := SessionCode(slugAt(0));
      attempts := 0;
      while code in activeSessions && attempts < MaxCodeAttempts
        invariant attempts <= MaxCodeAttempts && code == SessionCode(slugAt(attempts))
        invariant forall i :: 0 <= i < attempts ==> SessionCode(slugAt(i)) in activeSessions
      {
        assert SessionCode(slugAt(attempts)) in activeSessions;
        code := SessionCode(slugAt(attempts + 1));
        attempts := attempts + 1;
      }
    }

    /** Creates the used-words file of session `code` as an empty list unless it exists. */
    method CreateDefaultFiles(code: string)
      modifies this`usedWords
      ensures usedWords == if code in old(usedWords) then old(usedWords) else old(usedWords)[code := []]
    {
      if code !in usedWords {
        usedWords := usedWords[code := []];
      }
    }

    /**
     * Creates a session in the lobby. A wrong key fails with 403 and changes
     * nothing; otherwise the code's directory and used-words file are
     * provisioned and the code is bound to a fresh lobby record (replacing the
     * record of an active session only when every generated code collided).
     */
    method CreateSession(key: string, slugAt: nat -> string) returns (r: Result<string, HttpError>)
      requires Valid()
      modifies this`activeSessions, this`usedWords, this`sessionDirs
      ensures Valid()
      ensures r.Err? <==> key != apiKey
      ensures r.Err? ==> r.error == Forbidden && unchanged(this)
      ensures r.Ok? && r.value in old(activeSessions) ==>
        forall i :: 0 <= i <= MaxCodeAttempts ==> SessionCode(slugAt(i)) in old(activeSessions)
      ensures r.Ok? ==> var code := r.value;
        && (exists n :: 0 <= n <= MaxCodeAttempts && code == SessionCode(slugAt(n)))
        && code in activeSessions && fresh(activeSessions[code])
        && activeSessions[code].Snapshot() == LobbyRecord(code)
        && activeSessions == old(activeSessions)[code := activeSessions[code]]
        && sessionDirs == old(sessionDirs) + {code}
        && usedWords == (if code in old(usedWords) then old(usedWords) else old(usedWords)[code := []])
    {
      if key != apiKey {
        return Err(Forbidden);
      }
      var code, attempts := GenerateSessionCode(slugAt);
      sessionDirs := sessionDirs + {code};
      CreateDefaultFiles(code);
      var s := new Session.Lobby(code);
      activeSessions := activeSessions[code := s];
      r := Ok(code);
    }

    /** `active_sessions.get(code)`. */
    function GetSession(code: string): (r: Option<Session>)
      reads this
      ensures r.Some? <==> code in activeSessions
      ensures r.Some? ==> r.value == activeSessions[code]
      ensures Valid() && r.Some? ==> r.value.uuid == code
    {
      if code in activeSessions then Some(activeSessions[code]) else None
    }

    /**
     * The words session `code` may still draw: none when the master list or the
     * session's used-words file is missing, otherwise the master list without
     * the used words.
     */
    function GetAvailableWords(code: string): (r: seq<string>)
      reads this
      ensures forall w :: w in r <==>
        masterWords.Some? && code in usedWords && w in masterWords.value && w !in usedWords[code]
    {
      if masterWords.None? || code !in usedWords then []
      else Unused(masterWords.value, usedWords[code])
    }

    /**
     * Draws an available word (the choice is arbitrary) and makes it the
     * current word of the session, when the session is active; nothing else
     * changes. Returns None, changing nothing, when no word is available.
     */
    method PickNewWord(code: string) returns (w: Option<string>)
      modifies if code in activeSessions then {activeSessions[code]} else {}
      ensures w.None? <==> GetAvailableWords(code) == []
      ensures w.Some? ==> w.value in GetAvailableWords(code)
      ensures w.Some? ==> masterWords.Some? && w.value in masterWords.value
      ensures w.Some? ==> code in usedWords && w.value !in usedWords[code]
      ensures code in activeSessions ==> var s := activeSessions[code];
        s.Snapshot() == if w.Some? then old(s.Snapshot()).(currentWord := w) else old(s.Snapshot())
    {
      var available := GetAvailableWords(code);
      if available == [] {
        return None;
      }
      assert available[0] in available;
      var word :| word in available;
      var session := GetSession(code);
      if session.Some? {
        session.value.currentWord := Some(word);
      }
      w := Some(word);
    }

    /**
     * Appends `word` to the session's used-words list unless it is already
     * there; a missing file is left missing.
     */
    method MarkWordUsed(code: string, word: string)
      modifies this`usedWords
      ensures usedWords == if code in old(usedWords)
        then old(usedWords)[code := AddIfAbsent(old(usedWords)[code], word)]
        else old(usedWords)
      ensures code in usedWords ==> word in usedWords[code] && old(usedWords)[code] <= usedWords[code]
      ensures word !in GetAvailableWords(code)
    {
      if code in usedWords {
        var used := usedWords[code];
        if word !in used {
          used := used + [word];
          usedWords := usedWords[code := used];
        }
      }
    }

    /** Empties the session's used-words list when its file exists; otherwise changes nothing. */
    method ClearUsedWords(code: string)
      modifies this`usedWords
      ensures usedWords == if code in old(usedWords) then old(usedWords)[code := []] else old(usedWords)
      ensures code in usedWords && masterWords.Some? ==> GetAvailableWords(code) == masterWords.value
    {
      if code in usedWords {
        usedWords := usedWords[code := []];
        if masterWords.Some? {
          UnusedNothingUsed(masterWords.value);
        }
      }
    }

    /**
     * Lets a client (re)join session `code`. A wrong key fails with 403; an
     * active session is returned with its record untouched; an inactive code
     * whose directory exists is rehydrated as a fresh lobby record; any other
     * code fails with 404. Failures change nothing.
     */
    method ValidateAndJoinSession(key: string, code: string) returns (r: Result<string, HttpError>)
      requires Valid()
      modifies this`activeSessions
      ensures Valid()
      ensures key != apiKey ==> r == Err(Forbidden)
      ensures key == apiKey && code !in old(activeSessions) && code !in sessionDirs ==> r == Err(NotFound)
      ensures r.Err? ==> activeSessions == old(activeSessions)
      ensures key == apiKey && code in old(activeSessions) ==>
        r == Ok(code) && activeSessions == old(activeSessions)
      ensures key == apiKey && code !in old(activeSessions) && code in sessionDirs ==>
        && r == Ok(code) && code in activeSessions && fresh(activeSessions[code])
        && activeSessions[code].Snapshot() == LobbyRecord(code)
        && activeSessions == old(activeSessions)[code := activeSessions[code]]
    {
      if key != apiKey {
        return Err(Forbidden);
      }
      if code !in activeSessions {
        if code in sessionDirs {
          var s := new Session.Lobby(code);
          activeSessions := activeSessions[code := s];
          return Ok(code);
        } else {
          return Err(NotFound);
        }
      }
      r := Ok(code);
    }
  }
}
