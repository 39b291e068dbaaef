/** Key strings: the format of redis keys, how workers and the reaper take them
    apart again, channel normalisation and channel choice. */
module Keys {
  import opened Protocol

  predicate Free(c: char, s: string) { c !in s }

  // ----- channel names

  function ToLower(c: char): char { if 'A' <= c <= 'Z' then c - 'A' + 'a' else c }

  /** RedisKeyspaceFormater: colons and commas go, spaces become dashes, then lower case. */
  function Normalise(s: string): string {
    if s == "" then ""
    else if s[0] == ':' || s[0] == ',' then Normalise(s[1..])
    else [if s[0] == ' ' then '-' else ToLower(s[0])] + Normalise(s[1..])
  }

  predicate Canonical(s: string) {
    forall i | 0 <= i < |s| :: s[i] != ':' && s[i] != ',' && s[i] != ' ' && !('A' <= s[i] <= 'Z')
  }

  lemma {:induction false} NormaliseIsCanonical(s: string)
    ensures Canonical(Normalise(s)) && Free(':', Normalise(s))
  {
    if s != "" { NormaliseIsCanonical(s[1..]); }
  }

  /** The canonical names are exactly the fixed points, so normalising twice changes nothing. */
  lemma NormaliseFixedPoints(s: string)
    ensures Normalise(s) == s <==> Canonical(s)
    ensures Normalise(Normalise(s)) == Normalise(s)
  {
    NormaliseIsCanonical(s);
    FixedIfCanonical(Normalise(s));
    if Canonical(s) { FixedIfCanonical(s); }
  }

  lemma {:induction false} FixedIfCanonical(s: string)
    requires Canonical(s)
    ensures Normalise(s) == s
  {
    if s != "" {
      assert Canonical(s[1..]);
      FixedIfCanonical(s[1..]);
    }
  }

  /** Normalisation works character by character, as listed. */
  lemma {:induction false} NormaliseByCharacter(a: string, b: string, c: char)
    ensures Normalise(a + b) == Normalise(a) + Normalise(b)
    ensures Normalise([c]) == if c == ':' || c == ',' then "" else if c == ' ' then "-"
                              else if 'A' <= c <= 'Z' then [(c as int + 32) as char] else [c]
  {
    assert [c][1..] == "";
    if a == "" {
      assert a + b == b;
    } else {
      assert (a + b)[1..] == a[1..] + b;
      NormaliseByCharacter(a[1..], b, c);
    }
  }

  /** buildQueue puts the default channel on the list when it is missing. */
  function WithDefault(channels: seq<string>, default: string): seq<string> {
    if default in channels then channels else channels + [default]
  }

  /** The channel Dispatch stores a job under. */
  function SelectChannel(channels: seq<string>, default: string, requested: string): string {
    if requested == "" then default
    else if Normalise(requested) in channels then Normalise(requested)
    else default
  }

  /** Completing the list loses no channel, and the selected channel is always on it. */
  lemma SelectedIsConfigured(channels: seq<string>, default: string, requested: string)
    ensures channels <= WithDefault(channels, default) && default in WithDefault(channels, default)
    ensures default in channels ==> WithDefault(channels, default) == channels
    ensures SelectChannel(WithDefault(channels, default), default, requested) in WithDefault(channels, default)
    ensures Free(':', default) ==> Free(':', SelectChannel(WithDefault(channels, default), default, requested))
  {
    NormaliseIsCanonical(requested);
  }

  /** The requested character stands for the canonical one: itself, a space for a dash, or a
      capital for its small letter. */
  predicate StandsFor(a: char, b: char) {
    a == b || (a == ' ' && b == '-') || ('A' <= a <= 'Z' && b as int == a as int + 32)
  }

  /** The requested name differs from the canonical one only by colons and commas put in,
      spaces for dashes, and case. */
  predicate Resembles(requested: string, name: string)
    decreases |requested|
  {
    if requested == "" then name == ""
    else if requested[0] == ':' || requested[0] == ',' then Resembles(requested[1..], name)
    else name != "" && StandsFor(requested[0], name[0]) && Resembles(requested[1..], name[1..])
  }

  /** A canonical name is what a request normalises to if and only if the two resemble
      each other. */
  lemma {:induction false} NormaliseResembles(requested: string, name: string)
    requires Canonical(name)
    ensures Normalise(requested) == name <==> Resembles(requested, name)
    decreases |requested|
  {
    if requested != "" {
      if requested[0] == ':' || requested[0] == ',' {
        NormaliseResembles(requested[1..], name);
      } else if name != "" {
        assert Canonical(name[1..]);
        NormaliseResembles(requested[1..], name[1..]);
        assert name == [name[0]] + name[1..];
        var first := Normalise(requested)[0];
        assert Normalise(requested) == [first] + Normalise(requested[1..]) && Normalise(requested)[1..] == Normalise(requested[1..]);
        assert first == name[0] <==> StandsFor(requested[0], name[0]);
      }
    }
  }

  /** The channel a request is to be honoured with: the listed canonical channel it
      resembles, or the default when it is empty or resembles none. */
  ghost predicate Honours(channels: seq<string>, default: string, requested: string, channel: string) {
    || (requested != "" && channel in channels && Canonical(channel) && Resembles(requested, channel))
    || (channel == default
        && (requested == "" || forall name | name in channels && Canonical(name) :: !Resembles(requested, name)))
  }

  /** The selected channel, and no other, honours the request; in particular a listed
      canonical name is selected as itself. */
  lemma RequestIsHonoured(channels: seq<string>, default: string, requested: string, channel: string)
    ensures Honours(channels, default, requested, channel) <==> channel == SelectChannel(channels, default, requested)
    ensures requested != "" && requested in channels && Canonical(requested) ==>
              SelectChannel(channels, default, requested) == requested
  {
    NormaliseIsCanonical(requested);
    NormaliseResembles(requested, Normalise(requested));
    forall name | Canonical(name) ensures Resembles(requested, name) <==> Normalise(requested) == name {
      NormaliseResembles(requested, name);
    }
    NormaliseFixedPoints(requested);
  }

  // ----- key strings

  function StateName(st: KeyState): string {
    match st
    case PendingKey => "pending"
    case LockedKey => "locked"
    case CompletedKey => "completed"
    case FailedKey => "failed"
  }

  function Format(queue: string, st: KeyState, id: string): string {
    "queues" + ":" + queue + ":" + StateName(st) + ":" + id
  }

  /** The four key formats. */
  lemma KeyFormats(queue: string, st: KeyState, id: string)
    ensures Format(queue, st, id)
            == "queues:" + queue + (match st
                                    case PendingKey => ":pending:"
                                    case LockedKey => ":locked:"
                                    case CompletedKey => ":completed:"
                                    case FailedKey => ":failed:") + id
  {
    var name := StateName(st);
    assert "queues" + ":" == "queues:";
    assert ":" + name + ":" == match st case PendingKey => ":pending:" case LockedKey => ":locked:"
                                        case CompletedKey => ":completed:" case FailedKey => ":failed:";
    assert "queues" + ":" + queue + ":" + name + ":" + id == ("queues" + ":") + queue + (":" + name + ":") + id;
  }

  /** strings.Split(s, ":") */
  function Split(s: string): (parts: seq<string>)
    ensures parts != []
  {
    if s == "" then [""]
    else if s[0] == ':' then [""] + Split(s[1..])
    else var rest := Split(s[1..]); [[s[0]] + rest[0]] + rest[1..]
  }

  lemma {:induction false} SplitFree(s: string)
    requires Free(':', s)
    ensures Split(s) == [s]
  {
    if s != "" {
      SplitFree(s[1..]);
      assert s == [s[0]] + s[1..];
    }
  }

  lemma {:induction false} SplitAt(a: string, b: string)
    ensures Split(a + ":" + b) == Split(a) + Split(b)
  {
    if a == "" {
      assert a + ":" + b == ":" + b && (":" + b)[1..] == b;
    } else {
      assert (a + ":" + b)[1..] == a[1..] + ":" + b;
      SplitAt(a[1..], b);
    }
  }

  lemma {:induction false} PartsAreFree(s: string)
    ensures forall i | 0 <= i < |Split(s)| :: Free(':', Split(s)[i])
    ensures |Split(s)| == 1 ==> Split(s) == [s]
  {
    if s != "" {
      PartsAreFree(s[1..]);
      assert s == [s[0]] + s[1..];
    }
  }

  lemma SplitHead(channel: string, name: string)
    requires Free(':', name)
    ensures Split("queues" + ":" + channel + ":" + name) == ["queues"] + Split(channel) + [name]
  {
    SplitAt("queues" + ":" + channel, name);
    SplitAt("queues", channel);
    SplitFree("queues");
    SplitFree(name);
  }

  lemma StateNameFree(st: KeyState)
    ensures Free(':', StateName(st))
  {}

  lemma SplitFormat(queue: string, st: KeyState, id: string)
    requires Free(':', id)
    ensures Split(Format(queue, st, id)) == ["queues"] + Split(queue) + [StateName(st), id]
  {
    var head := "queues" + ":" + queue + ":" + StateName(st);
    StateNameFree(st);
    SplitHead(queue, StateName(st));
    SplitAt(head, id);
    SplitFree(id);
    assert ["queues"] + Split(queue) + [StateName(st)] + [id] == ["queues"] + Split(queue) + [StateName(st), id];
  }

  /** keyParts[len - 1] and keyParts[len - 3], as worker and reaper read them. */
  function ParseId(key: string): string { var p := Split(key); p[|p| - 1] }

  function ParseQueue(key: string): string { var p := Split(key); if |p| < 3 then "" else p[|p| - 3] }

  /** The id always comes back; the queue comes back if and only if it has no colon. */
  lemma KeyRoundTrip(queue: string, st: KeyState, id: string)
    requires Free(':', id)
    ensures ParseId(Format(queue, st, id)) == id
    ensures ParseQueue(Format(queue, st, id)) == queue <==> Free(':', queue)
  {
    SplitFormat(queue, st, id);
    PartsAreFree(queue);
    if Free(':', queue) { SplitFree(queue); }
  }

  /** Distinct jobs and states never share a key string. */
  lemma FormatInjective(q: string, st: KeyState, id: string, q': string, st': KeyState, id': string)
    requires Free(':', q) && Free(':', id) && Free(':', q') && Free(':', id')
    requires Format(q, st, id) == Format(q', st', id')
    ensures q == q' && st == st' && id == id'
  {
    SplitFormat(q, st, id);
    SplitFormat(q', st', id');
    SplitFree(q);
    SplitFree(q');
    var p := Split(Format(q, st, id));
    assert p == ["queues", q, StateName(st), id];
    assert p == ["queues", q', StateName(st'), id'];
    StateNamesDiffer(st, st');
  }

  lemma StateNamesDiffer(a: KeyState, b: KeyState)
    ensures StateName(a) == StateName(b) ==> a == b
  {
    assert StateName(PendingKey)[0] == 'p' && StateName(LockedKey)[0] == 'l';
    assert StateName(CompletedKey)[0] == 'c' && StateName(FailedKey)[0] == 'f';
  }

  /** Depth's pattern for a channel without glob characters: a fixed prefix, then anything. */
  predicate Matches(channel: string, key: string) {
    "queues" + ":" + channel + ":" + "pending" + ":" <= key
  }

  lemma MatchSplits(channel: string, key: string)
    requires Matches(channel, key) && Free(':', channel)
    ensures |Split(key)| >= 3 && Split(key)[1] == channel && Split(key)[2] == "pending"
  {
    var head := "queues" + ":" + channel + ":" + "pending";
    var rest := key[|head| + 1..];
    assert key == head + ":" + rest;
    StateNameFree(PendingKey);
    SplitAt(head, rest);
    SplitHead(channel, "pending");
    SplitFree(channel);
  }

  lemma MatchesItsChannel(channel: string, queue: string, st: KeyState, id: string)
    requires Free(':', channel) && Free(':', queue) && Free(':', id)
    ensures Matches(channel, Format(queue, st, id)) <==> channel == queue && st == PendingKey
  {
    if Matches(channel, Format(queue, st, id)) {
      MatchSplits(channel, Format(queue, st, id));
      SplitFormat(queue, st, id);
      SplitFree(queue);
      StateNamesDiffer(st, PendingKey);
    }
  }

  predicate HexDigit(c: char) { '0' <= c <= '9' || 'a' <= c <= 'f' }

  /** The text form of a UUID (section 4 of RFC 9562), in the lower case the source prints. */
  predicate Uuid(s: string) {
    |s| == 36 && forall i | 0 <= i < 36 :: if i in {8, 13, 18, 23} then s[i] == '-' else HexDigit(s[i])
  }

  /** Every key Dispatch writes parses back to its own channel and id. */
  lemma DispatchedKeyRoundTrip(channels: seq<string>, default: string, requested: string, st: KeyState, id: string)
    requires Free(':', default) && Uuid(id)
    ensures var queue := SelectChannel(WithDefault(channels, default), default, requested);
            && ParseQueue(Format(queue, st, id)) == queue
            && ParseId(Format(queue, st, id)) == id
  {
    var queue := SelectChannel(WithDefault(channels, default), default, requested);
    SelectedIsConfigured(channels, default, requested);
    KeyRoundTrip(queue, st, id);
  }
}
