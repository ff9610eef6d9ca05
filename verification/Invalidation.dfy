/** Names of ACL invalidation messages: parsing, printing and the round trips. */
module Invalidation {
  datatype Op = AddOp | RemoveOp

  datatype Event =
    | UserWide(user: string)                        // refetch everything the user sees
    | Single(user: string, channel: string, op: Op) // one channel granted or revoked

  datatype Error = BadPrefix | EmptyId | BadOp | BadShape

  datatype Parsed = Event(event: Event) | Invalid(error: Error)

  /** `strings.Split(s, ":")`. */
  function Split(s: string): (parts: seq<string>)
    ensures |parts| >= 1
    ensures forall i :: 0 <= i < |parts| ==> ':' !in parts[i]
  {
    if s == "" then [""]
    else
      var rest := Split(s[1..]);
      if s[0] == ':' then [""] + rest else [[s[0]] + rest[0]] + rest[1..]
  }

  /** `strings.Join(parts, ":")`. */
  function Join(parts: seq<string>): string
    requires |parts| >= 1
  {
    if |parts| == 1 then parts[0] else parts[0] + ":" + Join(parts[1..])
  }

  lemma {:induction false} JoinSplit(s: string)
    ensures Join(Split(s)) == s
  {
    if s != "" {
      JoinSplit(s[1..]);
      var rest := Split(s[1..]);
      if s[0] == ':' {
        assert ([""] + rest)[1..] == rest;
      } else {
        JoinCons(s[0], rest);
      }
      assert s == [s[0]] + s[1..];
    }
  }

  lemma {:induction false} JoinCons(c: char, parts: seq<string>)
    requires |parts| >= 1
    ensures Join([[c] + parts[0]] + parts[1..]) == [c] + Join(parts)
  {
    var longer, first := [[c] + parts[0]] + parts[1..], parts[0];
    assert longer[0] == [c] + first && longer[1..] == parts[1..];
    if |parts| > 1 {
      var tail := ":" + Join(parts[1..]);
      assert first + ":" + Join(parts[1..]) == first + tail;
      assert ([c] + first) + ":" + Join(parts[1..]) == [c] + (first + tail);
    }
  }

  lemma {:induction false} SplitJoin(parts: seq<string>)
    requires |parts| >= 1 && forall i :: 0 <= i < |parts| ==> ':' !in parts[i]
    ensures Split(Join(parts)) == parts
  {
    if |parts| == 1 {
      SplitPlain(parts[0]);
      assert parts == [parts[0]];
    } else {
      SplitJoin(parts[1..]);
      SplitFirst(parts[0], Join(parts[1..]));
      assert parts == [parts[0]] + parts[1..];
    }
  }

  lemma {:induction false} SplitPlain(s: string)
    requires ':' !in s
    ensures Split(s) == [s]
  {
    if s != "" {
      SplitPlain(s[1..]);
      assert s == [s[0]] + s[1..];
    }
  }

  lemma {:induction false} SplitFirst(a: string, b: string)
    requires ':' !in a
    ensures Split(a + ":" + b) == [a] + Split(b)
  {
    var s := a + ":" + b;
    if a == "" {
      assert s[1..] == b;
    } else {
      SplitFirst(a[1..], b);
      assert s[1..] == a[1..] + ":" + b;
      assert ([a[1..]] + Split(b))[1..] == Split(b);
      assert a == [a[0]] + a[1..];
    }
  }

  function OpText(op: Op): string {
    if op.AddOp? then "add" else "remove"
  }

  function Parts(e: Event): seq<string> {
    match e
    case UserWide(u) => ["acl", "invalidate", "user", u]
    case Single(u, c, op) => ["acl", "invalidate", "user", u, "channel", c, OpText(op)]
  }

  function Print(e: Event): string {
    Join(Parts(e))
  }

  function Parse(name: string): Parsed {
    var parts := Split(name);
    if |parts| < 4 || parts[0] != "acl" || parts[1] != "invalidate" || parts[2] != "user" then Invalid(BadPrefix)
    else if |parts| == 4 then
      if parts[3] == "" then Invalid(EmptyId) else Event(UserWide(parts[3]))
    else if |parts| == 7 && parts[4] == "channel" then
      if parts[6] != "add" && parts[6] != "remove" then Invalid(BadOp)
      else if parts[3] == "" || parts[5] == "" then Invalid(EmptyId)
      else Event(Single(parts[3], parts[5], if parts[6] == "add" then AddOp else RemoveOp))
    else Invalid(BadShape)
  }

  predicate CleanId(id: string) {
    id != "" && ':' !in id
  }

  /** Events whose ids are non-empty and colon-free. */
  predicate Clean(e: Event) {
    CleanId(e.user) && (e.Single? ==> CleanId(e.channel))
  }

  /** Printing a parsed event gives the name back, and only clean events come out of parsing. */
  lemma PrintParse(name: string)
    requires Parse(name).Event?
    ensures Print(Parse(name).event) == name
    ensures Clean(Parse(name).event)
  {
    var parts := Split(name);
    JoinSplit(name);
    assert parts == Parts(Parse(name).event);
  }

  lemma OpTextsColonFree()
    ensures ':' !in "acl" && ':' !in "invalidate" && ':' !in "user" && ':' !in "channel" && ':' !in "add" &&
        ':' !in "remove"
  {
  }

  lemma ParsePrint(e: Event)
    requires Clean(e)
    ensures Parse(Print(e)) == Event(e)
  {
    OpTextsColonFree();
    SplitJoin(Parts(e));
  }

  /** The three kinds of names, written out. */
  lemma Names(user: string, channel: string)
    requires CleanId(user) && CleanId(channel)
    ensures Parse("acl:invalidate:user:" + user) == Event(UserWide(user))
    ensures Parse("acl:invalidate:user:" + user + ":channel:" + channel + ":add") ==
            Event(Single(user, channel, AddOp))
    ensures Parse("acl:invalidate:user:" + user + ":channel:" + channel + ":remove") ==
            Event(Single(user, channel, RemoveOp))
  {
    PrintUserWide(user);
    ParsePrint(UserWide(user));
    SingleName(user, channel, AddOp, "add", ":add");
    SingleName(user, channel, RemoveOp, "remove", ":remove");
  }

  lemma SingleName(user: string, channel: string, op: Op, text: string, end: string)
    requires CleanId(user) && CleanId(channel) && text == (if op == AddOp then "add" else "remove")
    requires end == ":" + text
    ensures Parse("acl:invalidate:user:" + user + ":channel:" + channel + end) == Event(Single(user, channel, op))
  {
    PrintSingle(user, channel, op, text);
    ParsePrint(Single(user, channel, op));
    Regroup("acl:invalidate:user:", user, ":", "channel:", channel, text);
    assert ":" + "channel:" == ":channel:";
  }

  lemma Regroup(a: string, b: string, colon: string, c: string, d: string, e: string)
    ensures a + ((b + colon) + (c + ((d + colon) + e))) == a + b + (colon + c) + d + (colon + e)
  {
  }

  /** Putting one more part in front of a name. */
  lemma JoinFront(head: string, part: string, parts: seq<string>, name: string)
    requires |parts| >= 1 && Join(parts) == name && head == part + ":"
    ensures Join([part] + parts) == head + name
  {
    assert ([part] + parts)[1..] == parts;
  }

  lemma PrintUserWide(user: string)
    ensures Print(UserWide(user)) == "acl:invalidate:user:" + user
  {
    JoinFront("user:", "user", [user], user);
    JoinFront("invalidate:", "invalidate", ["user"] + [user], "user:" + user);
    JoinFront("acl:", "acl", ["invalidate"] + (["user"] + [user]), "invalidate:" + ("user:" + user));
    assert Parts(UserWide(user)) == ["acl"] + (["invalidate"] + (["user"] + [user]));
    Prefix(user);
  }

  lemma Prefix(rest: string)
    ensures "acl:" + ("invalidate:" + ("user:" + rest)) == "acl:invalidate:user:" + rest
  {
    assert "acl:" + "invalidate:" + "user:" == "acl:invalidate:user:";
  }

  lemma PrintSingle(user: string, channel: string, op: Op, text: string)
    requires text == if op == AddOp then "add" else "remove"
    ensures Print(Single(user, channel, op)) ==
            "acl:invalidate:user:" + ((user + ":") + ("channel:" + ((channel + ":") + text)))
  {
    var p1, p2 := [channel] + [text], ["channel"] + ([channel] + [text]);
    JoinFront(channel + ":", channel, [text], text);
    JoinFront("channel:", "channel", p1, (channel + ":") + text);
    var rest := (user + ":") + ("channel:" + ((channel + ":") + text));
    JoinFront(user + ":", user, p2, "channel:" + ((channel + ":") + text));
    JoinFront("user:", "user", [user] + p2, rest);
    JoinFront("invalidate:", "invalidate", ["user"] + ([user] + p2), "user:" + rest);
    JoinFront("acl:", "acl", ["invalidate"] + (["user"] + ([user] + p2)), "invalidate:" + ("user:" + rest));
    assert Parts(Single(user, channel, op)) == ["acl"] + (["invalidate"] + (["user"] + ([user] + p2)));
    Prefix(rest);
  }

  lemma SplitPrint(e: Event)
    requires ColonFree(e)
    ensures Split(Print(e)) == Parts(e)
  {
    OpTextsColonFree();
    SplitJoin(Parts(e));
  }

  lemma EmptyUserWide()
    ensures Parse(Print(UserWide(""))) == Invalid(EmptyId)
  {
    SplitPrint(UserWide(""));
  }

  lemma EmptySingle(user: string, channel: string, op: Op)
    requires ColonFree(Single(user, channel, op)) && (user == "" || channel == "")
    ensures Parse(Print(Single(user, channel, op))) == Invalid(EmptyId)
  {
    SplitPrint(Single(user, channel, op));
    assert Parts(Single(user, channel, op))[6] == OpText(op);
  }

  lemma EmptyIdPrinted(e: Event)
    requires ColonFree(e) && !Clean(e)
    ensures Parse(Print(e)) == Invalid(EmptyId)
  {
    match e
    case UserWide(_) => EmptyUserWide();
    case Single(user, channel, op) => EmptySingle(user, channel, op);
  }

  lemma EmptyIdShape(name: string) returns (e: Event)
    requires Parse(name) == Invalid(EmptyId)
    ensures Print(e) == name && ColonFree(e) && !Clean(e)
  {
    var parts := Split(name);
    JoinSplit(name);
    e := if |parts| == 4 then UserWide(parts[3])
         else Single(parts[3], parts[5], if parts[6] == "add" then AddOp else RemoveOp);
    assert parts == Parts(e);
  }

  /** An otherwise well-formed name is rejected for an empty id exactly when an id is empty. */
  lemma EmptyIdIff(name: string)
    ensures Parse(name) == Invalid(EmptyId) <==> exists e :: Print(e) == name && ColonFree(e) && !Clean(e)
  {
    if Parse(name) == Invalid(EmptyId) {
      var e := EmptyIdShape(name);
    }
    if e :| Print(e) == name && ColonFree(e) && !Clean(e) {
      EmptyIdPrinted(e);
    }
  }

  /** A name is rejected for its prefix exactly when it does not begin as all names do. */
  lemma BadPrefixIff(name: string)
    ensures Parse(name) == Invalid(BadPrefix) <==> !("acl:invalidate:user:" <= name)
  {
    var parts := Split(name);
    JoinSplit(name);
    if Parse(name) != Invalid(BadPrefix) {
      JoinFront("user:", "user", parts[3..], Join(parts[3..]));
      JoinFront("invalidate:", "invalidate", ["user"] + parts[3..], "user:" + Join(parts[3..]));
      JoinFront("acl:", "acl", ["invalidate"] + (["user"] + parts[3..]), "invalidate:" + ("user:" + Join(parts[3..])));
      assert parts == ["acl"] + (["invalidate"] + (["user"] + parts[3..]));
      Prefix(Join(parts[3..]));
    }
    var head := "acl:invalidate:user:";
    if head <= name {
      assert name == head + name[|head|..];
      PrefixedParts(name[|head|..]);
    }
  }

  lemma PrefixedParts(rest: string)
    ensures Split("acl:invalidate:user:" + rest) == ["acl"] + (["invalidate"] + (["user"] + Split(rest)))
  {
    OpTextsColonFree();
    Prefix(rest);
    SplitFirst("user", rest);
    assert "user" + ":" + rest == "user:" + rest;
    SplitFirst("invalidate", "user:" + rest);
    assert "invalidate" + ":" + ("user:" + rest) == "invalidate:" + ("user:" + rest);
    SplitFirst("acl", "invalidate:" + ("user:" + rest));
    assert "acl" + ":" + ("invalidate:" + ("user:" + rest)) == "acl:" + ("invalidate:" + ("user:" + rest));
  }

  /** A name of the long form is rejected for its operation when that is neither of the two. */
  lemma BadOpNames(user: string, channel: string, text: string)
    requires ':' !in user && ':' !in channel && ':' !in text && text != "add" && text != "remove"
    ensures Parse(Join(["acl", "invalidate", "user", user, "channel", channel, text])) == Invalid(BadOp)
  {
    OpTextsColonFree();
    SplitJoin(["acl", "invalidate", "user", user, "channel", channel, text]);
  }

  predicate ColonFree(e: Event) {
    ':' !in e.user && (e.Single? ==> ':' !in e.channel)
  }

  /** An event survives printing and parsing exactly when its ids are clean. */
  lemma RoundTripIff(e: Event)
    ensures Parse(Print(e)) == Event(e) <==> Clean(e)
  {
    if Clean(e) {
      ParsePrint(e);
    } else if Parse(Print(e)) == Event(e) {
      PrintParse(Print(e));
    }
  }

  /** A name is accepted exactly when it is the printed form of some clean event. */
  lemma AcceptedIff(name: string)
    ensures Parse(name).Event? <==> exists e :: Clean(e) && Print(e) == name
  {
    if Parse(name).Event? {
      PrintParse(name);
    }
    if exists e :: Clean(e) && Print(e) == name {
      var e :| Clean(e) && Print(e) == name;
      ParsePrint(e);
    }
  }
}
