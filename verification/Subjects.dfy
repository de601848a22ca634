/** The subject grammar on the bus: event filters, after events/subject.go, and the subjects of an identity's
 * key-value space, after kv.go. */
module Subjects {
  import opened Common
  import opened Text

  /** NATS matching, token by token: `*` is one token, `>` is one or more. */
  predicate MatchTokens(p: seq<string>, s: seq<string>) {
    if p == [] then s == []
    else if p[0] == ">" then s != []
    else s != [] && (p[0] == "*" || p[0] == s[0]) && MatchTokens(p[1..], s[1..])
  }

  predicate Matches(pattern: string, subject: string) {
    MatchTokens(Split(pattern, '.'), Split(subject, '.'))
  }

  /** The same matching as a loop over the pattern. */
  method SubjectMatches(pattern: string, subject: string) returns (ok: bool)
    ensures ok == Matches(pattern, subject)
  {
    var p, s := Split(pattern, '.'), Split(subject, '.');
    assert p[0..] == p && s[0..] == s;
    for i := 0 to |p|
      invariant i <= |s|
      invariant Matches(pattern, subject) == MatchTokens(p[i..], s[i..])
    {
      assert p[i..][1..] == p[i + 1..];
      if p[i] == ">" {
        return |s| > i;
      }
      if i >= |s| || (p[i] != "*" && p[i] != s[i]) {
        return false;
      }
      assert s[i..][1..] == s[i + 1..];
    }
    return |p| == |s|;
  }

  /** A front without `>` matches token for token, and the rest matches the rest. */
  lemma {:induction false} MatchFront(a: seq<string>, b: seq<string>, p: seq<string>, s: seq<string>)
    requires |a| == |b| && ">" !in a
    ensures MatchTokens(a + p, b + s) <==>
            (forall k :: 0 <= k < |a| ==> a[k] == "*" || a[k] == b[k]) && MatchTokens(p, s)
  {
    if a == [] {
      assert a + p == p && b + s == s;
    } else {
      MatchFront(a[1..], b[1..], p, s);
      assert (a + p)[1..] == a[1..] + p && (b + s)[1..] == b[1..] + s;
      assert forall k :: 0 <= k < |a| ==> a[k] == if k == 0 then a[0] else a[1..][k - 1];
      assert forall k :: 0 <= k < |b| ==> b[k] == if k == 0 then b[0] else b[1..][k - 1];
    }
  }

  lemma Joined(a: string, b: string)
    ensures Split(a + "." + b, '.') == Split(a, '.') + Split(b, '.')
  {
    SplitConcat(a, b, '.');
  }

  //
  // Events
  //

  const VERSION := "v1"

  function Subject(instance: string, eventType: string): string {
    instance + "." + "events" + "." + VERSION + "." + eventType
  }

  function StreamSubject(instance: string): string {
    instance + "." + "events" + "." + VERSION + "." + ">"
  }

  predicate Wild(token: string) {
    '*' in token || '>' in token
  }

  /** A token of a filter: `>` only at the end, and a wildcard is a whole token. */
  predicate TokenOK(tokens: seq<string>, i: nat)
    requires i < |tokens|
  {
    var t := tokens[i];
    t != "" && (t == ">" ==> i == |tokens| - 1) && (Wild(t) ==> t == "*" || t == ">")
  }

  ghost predicate FilterOK(filter: string) {
    Trim(filter) == "" ||
    (Trim(filter) == filter && ' ' !in filter && '\t' !in filter && '\n' !in filter
     && forall i :: 0 <= i < |Split(filter, '.')| ==> TokenOK(Split(filter, '.'), i))
  }

  method ValidFilter(filter: string) returns (ok: bool)
    ensures ok == FilterOK(filter)
  {
    hide Split, Trim, Wild;
    if Trim(filter) == "" {
      return true;
    }
    if filter != Trim(filter) {
      return false;
    }
    if ' ' in filter || '\t' in filter || '\n' in filter {
      return false;
    }
    var tokens := Split(filter, '.');
    for i := 0 to |tokens|
      invariant forall k :: 0 <= k < i ==> TokenOK(tokens, k)
    {
      var tok := tokens[i];
      if tok == "" {
        assert !TokenOK(tokens, i);
        return false;
      }
      if tok == ">" && i != |tokens| - 1 {
        assert !TokenOK(tokens, i);
        return false;
      }
      if tok != "*" && tok != ">" && Wild(tok) {
        assert !TokenOK(tokens, i);
        return false;
      }
    }
    return true;
  }

  /** What `FilterSubject` answers; None for a filter it refuses. */
  ghost function FilterSubjectOf(instance: string, filter: string): Option<string> {
    var f := Trim(filter);
    if f == "" then Some(StreamSubject(instance))
    else if FilterOK(f) then Some(Subject(instance, f))
    else None
  }

  method FilterSubject(instance: string, filter: string) returns (r: Option<string>)
    ensures r == FilterSubjectOf(instance, filter)
  {
    var f := Trim(filter);
    if f == "" {
      return Some(StreamSubject(instance));
    }
    var ok := ValidFilter(f);
    if !ok {
      return None;
    }
    return Some(Subject(instance, f));
  }

  lemma JoinedToken(a: string, token: string)
    requires '.' !in token
    ensures Split(a + "." + token, '.') == Split(a, '.') + [token]
  {
    Joined(a, token);
    SplitNoSeparator(token, '.');
  }

  /** The tokens of a subject of the event plane. */
  lemma EventTokens(instance: string, tail: string)
    ensures Split(Subject(instance, tail), '.') == Split(instance, '.') + ["events", "v1"] + Split(tail, '.')
  {
    hide Split;
    var plane := instance + "." + "events";
    JoinedToken(instance, "events");
    JoinedToken(plane, VERSION);
    Joined(plane + "." + VERSION, tail);
    assert Split(instance, '.') + ["events"] + [VERSION] == Split(instance, '.') + ["events", "v1"];
  }

  lemma StreamTokens(instance: string)
    ensures Split(StreamSubject(instance), '.') == Split(instance, '.') + ["events", "v1", ">"]
  {
    SplitNoSeparator(">", '.');
    hide Split;
    EventTokens(instance, ">");
    assert Split(instance, '.') + ["events", "v1"] + [">"] == Split(instance, '.') + ["events", "v1", ">"];
  }

  /** Two patterns with the same front: what matches the one that goes on also matches the one that ends
    * in `>`. */
  lemma {:induction false} LongerMatchesLess(front: seq<string>, rest: seq<string>, s: seq<string>)
    requires rest != [] && MatchTokens(front + rest, s)
    ensures MatchTokens(front + [">"], s)
  {
    if front == [] {
      assert front + rest == rest && front + [">"] == [">"];
    } else {
      assert (front + rest)[1..] == front[1..] + rest && (front + [">"])[1..] == front[1..] + [">"];
      if front[0] != ">" {
        LongerMatchesLess(front[1..], rest, s[1..]);
      }
    }
  }

  /** Every filter that is taken yields a pattern inside the stream's own subjects. */
  lemma FilterStaysInStream(instance: string, filter: string, subject: string)
    requires FilterSubjectOf(instance, filter).Some?
    requires Matches(FilterSubjectOf(instance, filter).value, subject)
    ensures Matches(StreamSubject(instance), subject)
  {
    hide Split, MatchTokens, Trim, FilterOK;
    var f := Trim(filter);
    if f != "" {
      EventTokens(instance, f);
      StreamTokens(instance);
      var front := Split(instance, '.') + ["events", "v1"];
      LongerMatchesLess(front, Split(f, '.'), Split(subject, '.'));
      assert front + [">"] == Split(instance, '.') + ["events", "v1", ">"];
    }
  }

  lemma {:induction false} FullWildcardMatches(front: seq<string>, rest: seq<string>, s: seq<string>)
    requires ">" in front && |front| <= |s|
    requires forall k :: 0 <= k < |front| ==> front[k] == s[k]
    ensures MatchTokens(front + rest, s)
  {
    assert (front + rest)[0] == front[0];
    if front[0] != ">" {
      assert (front + rest)[1..] == front[1..] + rest;
      FullWildcardMatches(front[1..], rest, s[1..]);
    }
  }

  /** The stream's subjects leave out the authentication event of the same deployment, as long as no token
    * of the instance's name is itself a full wildcard. */
  lemma StreamLeavesOutAuth(instance: string)
    ensures Matches(StreamSubject(instance), AuthSubject(instance)) <==> ">" in Split(instance, '.')
  {
    hide Split, MatchTokens;
    StreamTokens(instance);
    AuthTokens(instance);
    var i := Split(instance, '.');
    if ">" in i {
      FullWildcardMatches(i, ["events", "v1", ">"], i + ["events", "auth"]);
    } else {
      MatchFront(i, i, ["events", "v1", ">"], ["events", "auth"]);
      AuthIsNotVersioned();
    }
  }

  /** The authentication event, on a plane of its own. */
  function AuthSubject(instance: string): string {
    instance + "." + "events" + "." + "auth"
  }

  lemma AuthTokens(instance: string)
    ensures Split(AuthSubject(instance), '.') == Split(instance, '.') + ["events", "auth"]
  {
    hide Split;
    JoinedToken(instance, "events");
    JoinedToken(instance + "." + "events", "auth");
    assert Split(instance, '.') + ["events"] + ["auth"] == Split(instance, '.') + ["events", "auth"];
  }

  lemma AuthIsNotVersioned()
    ensures !MatchTokens(["events", "v1", ">"], ["events", "auth"])
  {
    assert ["events", "v1", ">"][1..] == ["v1", ">"] && ["events", "auth"][1..] == ["auth"];
  }

  /** No filter makes a consumer receive it either. */
  lemma NoFilterReachesAuth(instance: string, filter: string)
    requires ">" !in Split(instance, '.') && FilterSubjectOf(instance, filter).Some?
    ensures !Matches(FilterSubjectOf(instance, filter).value, AuthSubject(instance))
  {
    hide Split, MatchTokens, FilterSubjectOf, StreamSubject;
    StreamLeavesOutAuth(instance);
    if Matches(FilterSubjectOf(instance, filter).value, AuthSubject(instance)) {
      FilterStaysInStream(instance, filter, AuthSubject(instance));
    }
  }

  /** A filter is a pattern over the event type. */
  lemma FilterMatchesTypes(instance: string, filter: string, eventType: string)
    requires ">" !in Split(instance, '.') && Trim(filter) != "" && FilterSubjectOf(instance, filter).Some?
    ensures Matches(FilterSubjectOf(instance, filter).value, Subject(instance, eventType)) <==> Matches(Trim(filter), eventType)
  {
    hide Split, MatchTokens, Trim, FilterOK;
    var f, i := Trim(filter), Split(instance, '.');
    EventTokens(instance, f);
    EventTokens(instance, eventType);
    var front := i + ["events", "v1"];
    assert ">" !in front;
    MatchFront(front, front, Split(f, '.'), Split(eventType, '.'));
  }

  /** `TypeFromSubject`. */
  function TypeFromSubject(subject: string): string {
    var tokens := Split(subject, '.');
    if |tokens| < 4 || tokens[1] != "events" then "" else Join(tokens[3..], '.')
  }

  lemma {:induction false} JoinLonger(a: seq<string>, b: seq<string>, sep: char)
    requires a != [] && b != []
    ensures |Join(a + b, sep)| > |Join(b, sep)|
  {
    assert (a + b)[1..] == a[1..] + b;
    if |a| > 1 {
      JoinLonger(a[1..], b, sep);
    } else {
      assert a[1..] + b == b;
    }
  }

  /** The event type can be read back from a subject exactly when the instance is a single token. */
  lemma TypeRoundTrip(instance: string, eventType: string)
    requires eventType != ""
    ensures TypeFromSubject(Subject(instance, eventType)) == eventType <==> '.' !in instance
  {
    hide Split, Join;
    EventTokens(instance, eventType);
    JoinSplit(eventType, '.');
    var i, t := Split(instance, '.'), Split(eventType, '.');
    var tokens := i + ["events", "v1"] + t;
    if '.' !in instance {
      SplitNoSeparator(instance, '.');
      assert tokens[3..] == t && tokens[1] == "events";
    } else {
      DottedHasTokens(instance);
      var more := tokens[3..|i| + 2];
      assert tokens[3..] == more + t;
      JoinLonger(more, t, '.');
    }
  }

  lemma {:induction false} DottedHasTokens(s: string)
    requires '.' in s
    ensures |Split(s, '.')| >= 2
  {
    if s[0] != '.' {
      DottedHasTokens(s[1..]);
    }
  }

  //
  // The key-value space
  //

  const BUCKET := "JIKU_KV"
  const STREAM := "KV_JIKU_KV"

  function KVKey(instance: string, userID: string, key: string): string {
    instance + "." + userID + "." + key
  }

  /** The subject of a write or a delete. */
  function WriteSubject(full: string): string {
    "$KV" + "." + BUCKET + "." + full
  }

  /** A subject of the JetStream API. */
  function Api(noun: string, verb: string): string {
    "$JS" + "." + "API" + "." + noun + "." + verb
  }

  const DIRECT_GET := ["$JS", "API", "DIRECT", "GET"]

  /** The subject of a read. */
  function ReadSubject(full: string): string {
    Api("DIRECT", "GET") + "." + STREAM + "." + WriteSubject(full)
  }

  predicate KeyChar(c: char) {
    'a' <= c <= 'z' || 'A' <= c <= 'Z' || '0' <= c <= '9' || c in "-/_=."
  }

  /** A key NATS takes: no segment is empty and every character is allowed. */
  ghost predicate KeyOK(key: string) {
    "" !in Split(key, '.') && forall i :: 0 <= i < |key| ==> KeyChar(key[i])
  }

  predicate DoubleDot(key: string) {
    exists i :: 0 <= i < |key| - 1 && key[i] == '.' && key[i + 1] == '.'
  }

  lemma {:induction false} FirstSegmentEmpty(key: string)
    ensures Split(key, '.')[0] == "" <==> key == "" || key[0] == '.'
  {
  }

  lemma DoubleDotBehind(key: string)
    requires |key| > 1
    ensures DoubleDot(key) <==> (key[0] == '.' && key[1] == '.') || DoubleDot(key[1..])
  {
    if DoubleDot(key) {
      var i :| 0 <= i < |key| - 1 && key[i] == '.' && key[i + 1] == '.';
      assert i > 0 ==> key[1..][i - 1] == '.' && key[1..][i - 1 + 1] == '.';
    }
    if DoubleDot(key[1..]) {
      var i :| 0 <= i < |key[1..]| - 1 && key[1..][i] == '.' && key[1..][i + 1] == '.';
      assert key[i + 1] == '.' && key[i + 1 + 1] == '.';
    }
  }

  lemma {:induction false} LaterSegments(key: string)
    requires key != ""
    ensures "" !in Split(key, '.')[1..] <==> key[|key| - 1] != '.' && !DoubleDot(key)
  {
    hide Split, DoubleDot;
    var rest := key[1..];
    SplitStep(key, '.');
    var t := Split(rest, '.');
    assert key[0] == '.' ==> ([""] + t)[1..] == t;
    assert key[0] != '.' ==> ([[key[0]] + t[0]] + t[1..])[1..] == t[1..];
    if rest == "" {
      SplitNoSeparator("", '.');
      OneCharacter(key);
    } else {
      LaterSegments(rest);
      FirstSegmentEmpty(rest);
      DoubleDotBehind(key);
      assert t == [t[0]] + t[1..];
    }
  }

  lemma OneCharacter(key: string)
    requires |key| == 1
    ensures !DoubleDot(key)
  {
  }

  /** No empty segment, by the characters. */
  lemma NoEmptySegment(key: string)
    ensures "" !in Split(key, '.') <==>
            key != "" && key[0] != '.' && key[|key| - 1] != '.' && !DoubleDot(key)
  {
    hide Split, DoubleDot;
    var t := Split(key, '.');
    FirstSegmentEmpty(key);
    assert t == [t[0]] + t[1..];
    if key != "" {
      LaterSegments(key);
    }
  }

  method ValidKVKey(key: string) returns (ok: bool)
    ensures ok == KeyOK(key)
  {
    NoEmptySegment(key);
    if key == "" {
      return false;
    }
    if key[0] == '.' || key[|key| - 1] == '.' || DoubleDot(key) {
      return false;
    }
    for i := 0 to |key|
      invariant forall k :: 0 <= k < i ==> KeyChar(key[k])
    {
      if !KeyChar(key[i]) {
        return false;
      }
    }
    return true;
  }

  /** An instance or an identity that is one token of a subject and no wildcard. */
  predicate Token(t: string) {
    '.' !in t && t != "*" && t != ">"
  }

  /** The three lines a role template needs, for one identity. */
  function Grants(instance: string, userID: string): seq<string> {
    [Api("STREAM", "INFO") + "." + STREAM, WriteSubject(KVKey(instance, userID, ">")), ReadSubject(KVKey(instance, userID, ">"))]
  }

  predicate Granted(instance: string, userID: string, subject: string) {
    exists i :: 0 <= i < 3 && Matches(Grants(instance, userID)[i], subject)
  }

  lemma KeyTokens(instance: string, userID: string, key: string)
    requires '.' !in instance && '.' !in userID
    ensures Split(KVKey(instance, userID, key), '.') == [instance, userID] + Split(key, '.')
  {
    SplitNoSeparator(instance, '.');
    hide Split;
    JoinedToken(instance, userID);
    Joined(instance + "." + userID, key);
  }

  lemma WriteTokens(full: string)
    ensures Split(WriteSubject(full), '.') == ["$KV", "JIKU_KV"] + Split(full, '.')
  {
    SplitNoSeparator("$KV", '.');
    hide Split;
    JoinedToken("$KV", BUCKET);
    Joined("$KV" + "." + BUCKET, full);
  }

  lemma ApiTokens(noun: string, verb: string)
    requires '.' !in noun && '.' !in verb
    ensures Split(Api(noun, verb), '.') == ["$JS", "API", noun, verb]
  {
    SplitNoSeparator("$JS", '.');
    hide Split;
    JoinedToken("$JS", "API");
    JoinedToken("$JS" + "." + "API", noun);
    JoinedToken("$JS" + "." + "API" + "." + noun, verb);
  }

  lemma ReadTokens(full: string)
    ensures Split(ReadSubject(full), '.') == DIRECT_GET + [STREAM, "$KV", "JIKU_KV"] + Split(full, '.')
  {
    hide Split;
    ApiTokens("DIRECT", "GET");
    JoinedToken(Api("DIRECT", "GET"), STREAM);
    Joined(Api("DIRECT", "GET") + "." + STREAM, WriteSubject(full));
    WriteTokens(full);
  }

  /** Literal fronts match only each other. */
  lemma LiteralFront(a: seq<string>, b: seq<string>, p: seq<string>, s: seq<string>)
    requires |a| == |b| && (forall k :: 0 <= k < |a| ==> a[k] != "*" && a[k] != ">")
    ensures MatchTokens(a + p, b + s) <==> a == b && MatchTokens(p, s)
  {
    assert ">" !in a;
    MatchFront(a, b, p, s);
  }

  lemma {:induction false} TailMatches(s: seq<string>)
    ensures MatchTokens([">"], s) <==> s != []
  {
  }

  /** The grant lines of one identity and the subjects of another identity's key, token by token. */
  lemma GrantAndSubject(instance: string, userID: string, instance': string, userID': string, key: string)
    requires Token(instance) && Token(userID) && '.' !in instance' && '.' !in userID'
    ensures var mine, theirs := KVKey(instance, userID, ">"), KVKey(instance', userID', key);
            && (Matches(WriteSubject(mine), WriteSubject(theirs)) <==> instance == instance' && userID == userID')
            && (Matches(ReadSubject(mine), ReadSubject(theirs)) <==> instance == instance' && userID == userID')
            && !Matches(WriteSubject(mine), ReadSubject(theirs)) && !Matches(ReadSubject(mine), WriteSubject(theirs))
  {
    hide Split, MatchTokens, WriteSubject, ReadSubject, KVKey;
    var mine, theirs := KVKey(instance, userID, ">"), KVKey(instance', userID', key);
    SplitNoSeparator(">", '.');
    KeyTokens(instance, userID, ">");
    KeyTokens(instance', userID', key);
    var w, r := ["$KV", "JIKU_KV"], DIRECT_GET + [STREAM, "$KV", "JIKU_KV"];
    var a, b, k := [instance, userID], [instance', userID'], Split(key, '.');
    WriteTokens(mine);
    WriteTokens(theirs);
    ReadTokens(mine);
    ReadTokens(theirs);
    TailMatches(k);
    LiteralFront(w + a, w + b, [">"], k);
    LiteralFront(r + a, r + b, [">"], k);
    assert w + a + [">"] == w + (a + [">"]) && w + b + k == w + (b + k);
    assert r + a + [">"] == r + (a + [">"]) && r + b + k == r + (b + k);
    FirstTokenDiffers(w + (a + [">"]), r + (b + k));
    FirstTokenDiffers(r + (a + [">"]), w + (b + k));
    assert (w + a)[2] == instance && (w + a)[3] == userID && (w + b)[2] == instance' && (w + b)[3] == userID';
    assert (r + a)[7] == instance && (r + a)[8] == userID && (r + b)[7] == instance' && (r + b)[8] == userID';
  }

  lemma FirstTokenDiffers(p: seq<string>, s: seq<string>)
    requires p != [] && s != [] && p[0] != "*" && p[0] != ">" && p[0] != s[0]
    ensures !MatchTokens(p, s)
  {
  }

  /** Whatever the key, an identity is granted its read or write subject exactly when instance and identity
    * are its own. */
  lemma GrantedOnlyOwn(instance: string, userID: string, instance': string, userID': string, key: string)
    requires Token(instance) && Token(userID) && '.' !in instance' && '.' !in userID'
    ensures Granted(instance, userID, WriteSubject(KVKey(instance', userID', key))) <==> instance == instance' && userID == userID'
    ensures Granted(instance, userID, ReadSubject(KVKey(instance', userID', key))) <==> instance == instance' && userID == userID'
  {
    hide Split, MatchTokens, WriteSubject, ReadSubject, KVKey;
    var theirs := KVKey(instance', userID', key);
    GrantAndSubject(instance, userID, instance', userID', key);
    InfoGrantsNoKey(theirs);
    var grants := Grants(instance, userID);
    if instance == instance' && userID == userID' {
      assert Matches(grants[1], WriteSubject(theirs)) && Matches(grants[2], ReadSubject(theirs));
    }
  }

  lemma InfoGrantsNoKey(full: string)
    ensures !Matches(Api("STREAM", "INFO") + "." + STREAM, WriteSubject(full))
    ensures !Matches(Api("STREAM", "INFO") + "." + STREAM, ReadSubject(full))
  {
    hide Split, MatchTokens, WriteSubject, ReadSubject;
    ApiTokens("STREAM", "INFO");
    JoinedToken(Api("STREAM", "INFO"), STREAM);
    WriteTokens(full);
    ReadTokens(full);
    var info := ["$JS", "API", "STREAM", "INFO", STREAM];
    var rest := Split(full, '.');
    assert ["$JS", "API", "STREAM", "INFO"] + [STREAM] == info;
    FirstTokenDiffers(info, ["$KV", "JIKU_KV"] + rest);
    var read := ["GET", STREAM, "$KV", "JIKU_KV"] + rest;
    LiteralFront(["$JS", "API", "STREAM"], ["$JS", "API", "DIRECT"], ["INFO", STREAM], read);
    assert ["$JS", "API", "STREAM"] + ["INFO", STREAM] == info;
    assert ["$JS", "API", "DIRECT"] + read == DIRECT_GET + [STREAM, "$KV", "JIKU_KV"] + rest;
    assert ["$JS", "API", "STREAM"][2] != ["$JS", "API", "DIRECT"][2];
  }

  /** An identity that is not one token would lie in another's space: the grant of its first token covers
    * every key below it. */
  lemma DottedIdentityIsInside(instance: string, userID: string, rest: string, key: string)
    requires Token(instance) && Token(userID)
    ensures Granted(instance, userID, WriteSubject(KVKey(instance, userID + "." + rest, key)))
  {
    hide Split, MatchTokens, WriteSubject;
    assert KVKey(instance, userID + "." + rest, key) == KVKey(instance, userID, rest + "." + key) by {
      assert instance + "." + (userID + "." + rest) + "." + key == instance + "." + userID + "." + (rest + "." + key);
    }
    GrantedOnlyOwn(instance, userID, instance, userID, rest + "." + key);
  }
}
