/**
 * The text of the substitute `/etc/passwd` and `/etc/group` files that let a
 * container process run under the invoking host user's uid and gid
 * (RunAsCurrentUserConfigurationProvider.createPasswdFile / createGroupFile).
 *
 * The line builders are written as the provider writes them, by string
 * interpolation. Their partner is a reader of the two file formats, the way
 * the C library inside the container reads them (colon-separated fields, a
 * decimal uid/gid); the lemmas show which entry the container then resolves
 * for the host uid and gid.
 */
module IdentityFiles {
  import opened Wrappers

  /** The host identity, as the provider's SystemInfo reports it. */
  datatype SystemInfo = SystemInfo(userId: int, groupId: int, userName: string, groupName: string)

  // ---------------------------------------------------------------------------
  // Decimal rendering of an integer, as Kotlin's string templates do it
  // ---------------------------------------------------------------------------

  predicate IsDigit(c: char) { '0' <= c <= '9' }

  function DigitChar(d: nat): (c: char)
    requires d < 10
    ensures IsDigit(c) && c as int - '0' as int == d
  {
    ('0' as int + d) as char
  }

  function NatToString(n: nat): (s: string)
    ensures |s| >= 1
    ensures forall i :: 0 <= i < |s| ==> IsDigit(s[i])
  {
    if n < 10 then [DigitChar(n)] else NatToString(n / 10) + [DigitChar(n % 10)]
  }

  function IntToString(n: int): (s: string)
    ensures |s| >= 1
    ensures forall i :: 0 <= i < |s| ==> IsDigit(s[i]) || (i == 0 && s[i] == '-')
  {
    if n < 0 then "-" + NatToString(-n) else NatToString(n)
  }

  /** Reads a non-empty run of decimal digits. */
  function ParseNat(s: string): (r: Option<nat>)
  {
    if |s| == 0 || !IsDigit(s[|s| - 1]) then None
    else
      var d := s[|s| - 1] as int - '0' as int;
      if |s| == 1 then Some(d)
      else match ParseNat(s[..|s| - 1])
        case Some(m) => Some(10 * m + d)
        case None => None
  }

  /** Reads an optionally negative decimal integer. */
  function ParseInt(s: string): (r: Option<int>)
  {
    if |s| > 0 && s[0] == '-' then
      match ParseNat(s[1..])
      case Some(m) => Some(-(m as int))
      case None => None
    else
      match ParseNat(s)
      case Some(m) => Some(m)
      case None => None
  }

  lemma {:induction false} ParseNatToString(n: nat)
    ensures ParseNat(NatToString(n)) == Some(n)
  {
    if n >= 10 {
      var s := NatToString(n);
      var prefix := NatToString(n / 10);
      assert s == prefix + [DigitChar(n % 10)];
      assert s[..|s| - 1] == prefix;
      ParseNatToString(n / 10);
    }
  }

  /** Reading back a rendered integer gives the integer: the rendering is injective. */
  lemma ParseIntToString(n: int)
    ensures ParseInt(IntToString(n)) == Some(n)
  {
    if n < 0 {
      ParseNatToString(-n);
      assert ("-" + NatToString(-n))[1..] == NatToString(-n);
    } else {
      ParseNatToString(n);
    }
  }

  // ---------------------------------------------------------------------------
  // Colon-separated fields
  // ---------------------------------------------------------------------------

  /** Splits a line at every occurrence of `sep`; the result has one more field than separators. */
  function Split(s: string, sep: char): (fields: seq<string>)
    ensures |fields| >= 1
  {
    if s == [] then [""]
    else if s[0] == sep then [""] + Split(s[1..], sep)
    else
      var rest := Split(s[1..], sep);
      [[s[0]] + rest[0]] + rest[1..]
  }

  /** Joins fields with `sep` between consecutive ones. */
  function Join(fields: seq<string>, sep: char): string
    requires |fields| >= 1
  {
    if |fields| == 1 then fields[0] else fields[0] + [sep] + Join(fields[1..], sep)
  }

  predicate NoSeparator(fields: seq<string>, sep: char)
  {
    forall i :: 0 <= i < |fields| ==> sep !in fields[i]
  }

  lemma {:induction false} SplitField(a: string, sep: char)
    requires sep !in a
    ensures Split(a, sep) == [a]
  {
    if a != [] {
      SplitField(a[1..], sep);
      assert [a[0]] + a[1..] == a;
    }
  }

  lemma {:induction false} SplitCons(a: string, b: string, sep: char)
    requires sep !in a
    ensures Split(a + [sep] + b, sep) == [a] + Split(b, sep)
  {
    var s := a + [sep] + b;
    if a == [] {
      assert s[1..] == b;
    } else {
      assert s[0] == a[0];
      assert s[1..] == a[1..] + [sep] + b;
      SplitCons(a[1..], b, sep);
      assert [a[0]] + a[1..] == a;
    }
  }

  /** Splitting undoes joining when no field contains the separator. */
  lemma {:induction false} SplitJoin(fields: seq<string>, sep: char)
    requires |fields| >= 1 && NoSeparator(fields, sep)
    ensures Split(Join(fields, sep), sep) == fields
  {
    if |fields| == 1 {
      SplitField(fields[0], sep);
    } else {
      SplitJoin(fields[1..], sep);
      SplitCons(fields[0], Join(fields[1..], sep), sep);
      assert [fields[0]] + fields[1..] == fields;
    }
  }

  lemma IntToStringHasNoColon(n: int)
    ensures ':' !in IntToString(n)
  {
  }

  lemma Join4(a: string, b: string, c: string, d: string, sep: char)
    ensures Join([a, b, c, d], sep) == a + [sep] + b + [sep] + c + [sep] + d
  {
    assert [c, d][1..] == [d];
    assert Join([c, d], sep) == c + [sep] + d;
    assert [b, c, d][1..] == [c, d];
    assert Join([b, c, d], sep) == b + [sep] + c + [sep] + d;
    assert [a, b, c, d][1..] == [b, c, d];
  }

  lemma Join7(a: string, b: string, c: string, d: string, e: string, f: string, g: string, sep: char)
    ensures Join([a, b, c, d, e, f, g], sep)
         == a + [sep] + b + [sep] + c + [sep] + d + [sep] + e + [sep] + f + [sep] + g
  {
    Join4(d, e, f, g, sep);
    assert [c, d, e, f, g][1..] == [d, e, f, g];
    assert Join([c, d, e, f, g], sep) == c + [sep] + Join([d, e, f, g], sep);
    assert [b, c, d, e, f, g][1..] == [c, d, e, f, g];
    assert Join([b, c, d, e, f, g], sep) == b + [sep] + Join([c, d, e, f, g], sep);
    assert [a, b, c, d, e, f, g][1..] == [b, c, d, e, f, g];
  }


  // ---------------------------------------------------------------------------
  // passwd
  // ---------------------------------------------------------------------------

  function RootPasswdLine(home: string): string
  {
    "root:x:0:0:root:" + home + ":/bin/sh"
  }

  function UserPasswdLine(info: SystemInfo, home: string): string
  {
    info.userName + ":x:" + IntToString(info.userId) + ":" + IntToString(info.groupId) + ":"
      + info.userName + ":" + home + ":/bin/sh"
  }

  /** The lines createPasswdFile writes: root alone when the host user is root, otherwise root then the host user. */
  function PasswdLines(info: SystemInfo, home: string): (lines: seq<string>)
    ensures 1 <= |lines| <= 2 && (|lines| == 1 <==> info.userId == 0)
    ensures |lines[0]| >= 16 && lines[0][..16] == "root:x:0:0:root:"
    ensures var last := lines[|lines| - 1];
      |last| >= |home| + 9 && last[|last| - |home| - 9..] == ":" + home + ":/bin/sh"
  {
    if info.userId == 0 then [RootPasswdLine(home)]
    else [RootPasswdLine("/root"), UserPasswdLine(info, home)]
  }

  /** One entry of a passwd file: name:password:uid:gid:gecos:home:shell. */
  datatype PasswdEntry = PasswdEntry(name: string, password: string, uid: int, gid: int,
                                     gecos: string, home: string, shell: string)

  function PasswdFields(e: PasswdEntry): seq<string>
  {
    [e.name, e.password, IntToString(e.uid), IntToString(e.gid), e.gecos, e.home, e.shell]
  }

  function ParsePasswdLine(line: string): (r: Option<PasswdEntry>)
  {
    var f := Split(line, ':');
    if |f| != 7 then None
    else match (ParseInt(f[2]), ParseInt(f[3]))
      case (Some(uid), Some(gid)) => Some(PasswdEntry(f[0], f[1], uid, gid, f[4], f[5], f[6]))
      case _ => None
  }

  /** Reads a whole passwd file; one unreadable line makes the file unreadable. */
  function ParsePasswd(lines: seq<string>): (r: Option<seq<PasswdEntry>>)
    ensures r.Some? ==> |r.value| == |lines|
  {
    if lines == [] then Some([])
    else match (ParsePasswdLine(lines[0]), ParsePasswd(lines[1..]))
      case (Some(e), Some(es)) => Some([e] + es)
      case _ => None
  }

  /** The first entry with the given uid, as getpwuid resolves it. */
  function LookupUid(entries: seq<PasswdEntry>, uid: int): (r: Option<PasswdEntry>)
    ensures r.Some? ==> r.value in entries && r.value.uid == uid
    ensures r.None? ==> forall i :: 0 <= i < |entries| ==> entries[i].uid != uid
  {
    if entries == [] then None
    else if entries[0].uid == uid then Some(entries[0])
    else LookupUid(entries[1..], uid)
  }

  /** Reading a line written from an entry's fields gives the entry back. */
  lemma ParsePasswdFields(e: PasswdEntry)
    requires ':' !in e.name && ':' !in e.password && ':' !in e.gecos && ':' !in e.home && ':' !in e.shell
    ensures ParsePasswdLine(Join(PasswdFields(e), ':')) == Some(e)
  {
    IntToStringHasNoColon(e.uid);
    IntToStringHasNoColon(e.gid);
    SplitJoin(PasswdFields(e), ':');
    ParseIntToString(e.uid);
    ParseIntToString(e.gid);
  }

  lemma RootPasswdLineFields(home: string)
    ensures RootPasswdLine(home) == Join(PasswdFields(PasswdEntry("root", "x", 0, 0, "root", home, "/bin/sh")), ':')
  {
    assert IntToString(0) == "0";
    Join7("root", "x", "0", "0", "root", home, "/bin/sh", ':');
  }

  lemma UserPasswdLineFields(info: SystemInfo, home: string)
    ensures UserPasswdLine(info, home)
         == Join(PasswdFields(PasswdEntry(info.userName, "x", info.userId, info.groupId, info.userName, home, "/bin/sh")), ':')
  {
    Join7(info.userName, "x", IntToString(info.userId), IntToString(info.groupId), info.userName, home, "/bin/sh", ':');
  }

  lemma ParsePasswdOne(l: string, e: PasswdEntry)
    requires ParsePasswdLine(l) == Some(e)
    ensures ParsePasswd([l]) == Some([e])
  {
    assert [l][1..] == [];
    assert ParsePasswd([]) == Some([]);
    assert [e] + [] == [e];
  }

  lemma ParsePasswdTwo(l1: string, e1: PasswdEntry, l2: string, e2: PasswdEntry)
    requires ParsePasswdLine(l1) == Some(e1) && ParsePasswdLine(l2) == Some(e2)
    ensures ParsePasswd([l1, l2]) == Some([e1, e2])
  {
    assert [l1, l2][1..] == [l2];
    ParsePasswdOne(l2, e2);
    assert [e1] + [e2] == [e1, e2];
  }

  /** The entries the container reads from the passwd file the provider writes. */
  function ExpectedPasswdEntries(info: SystemInfo, home: string): seq<PasswdEntry>
  {
    if info.userId == 0 then [PasswdEntry("root", "x", 0, 0, "root", home, "/bin/sh")]
    else [PasswdEntry("root", "x", 0, 0, "root", "/root", "/bin/sh"),
          PasswdEntry(info.userName, "x", info.userId, info.groupId, info.userName, home, "/bin/sh")]
  }

  /**
   * The passwd file reads back as: root with the configured home when the host
   * uid is 0; otherwise root with home /root followed by the host user with the
   * host uid, the host gid and the configured home.
   */
  lemma PasswdLinesParse(info: SystemInfo, home: string)
    requires ':' !in info.userName && ':' !in home
    ensures ParsePasswd(PasswdLines(info, home)) == Some(ExpectedPasswdEntries(info, home))
  {
    var es := ExpectedPasswdEntries(info, home);
    ParsePasswdFields(es[0]);
    if info.userId == 0 {
      RootPasswdLineFields(home);
      ParsePasswdOne(RootPasswdLine(home), es[0]);
    } else {
      RootPasswdLineFields("/root");
      UserPasswdLineFields(info, home);
      ParsePasswdFields(es[1]);
      ParsePasswdTwo(RootPasswdLine("/root"), es[0], UserPasswdLine(info, home), es[1]);
    }
  }

  /**
   * Inside the container the host uid resolves to an entry whose home is the
   * configured home directory and whose shell is /bin/sh, and no other entry
   * carries that uid; uid 0 always resolves to root.
   */
  lemma HostUserResolves(info: SystemInfo, home: string)
    requires ':' !in info.userName && ':' !in home
    ensures var parsed := ParsePasswd(PasswdLines(info, home));
      parsed.Some? &&
      var es := parsed.value;
      (forall i, j :: 0 <= i < j < |es| ==> es[i].uid != es[j].uid) &&
      var e := LookupUid(es, info.userId);
      e.Some? && e.value.home == home && e.value.shell == "/bin/sh" &&
      e.value.name == (if info.userId == 0 then "root" else info.userName) &&
      e.value.gid == (if info.userId == 0 then 0 else info.groupId) &&
      var r := LookupUid(es, 0);
      r.Some? && r.value.name == "root" && r.value.gid == 0 &&
      r.value.home == (if info.userId == 0 then home else "/root")
  {
    PasswdLinesParse(info, home);
  }

  // ---------------------------------------------------------------------------
  // group
  // ---------------------------------------------------------------------------

  const RootGroupLine := "root:x:0:root"

  function HostGroupLine(info: SystemInfo): string
  {
    info.groupName + ":x:" + IntToString(info.groupId) + ":" + info.userName
  }

  /** The lines createGroupFile writes: root alone when the host group is root, otherwise root then the host group. */
  function GroupLines(info: SystemInfo): (lines: seq<string>)
    ensures 1 <= |lines| <= 2 && (|lines| == 1 <==> info.groupId == 0)
    ensures lines[0] == RootGroupLine
    ensures info.groupId != 0 ==>
      |lines[1]| >= |info.userName| + 1 && lines[1][|lines[1]| - |info.userName| - 1..] == ":" + info.userName
  {
    if info.groupId == 0 then [RootGroupLine] else [RootGroupLine, HostGroupLine(info)]
  }

  /** One entry of a group file: name:password:gid:members. */
  datatype GroupEntry = GroupEntry(name: string, password: string, gid: int, members: string)

  function GroupFields(e: GroupEntry): seq<string>
  {
    [e.name, e.password, IntToString(e.gid), e.members]
  }

  function ParseGroupLine(line: string): (r: Option<GroupEntry>)
  {
    var f := Split(line, ':');
    if |f| != 4 then None
    else match ParseInt(f[2])
      case Some(gid) => Some(GroupEntry(f[0], f[1], gid, f[3]))
      case None => None
  }

  function ParseGroup(lines: seq<string>): (r: Option<seq<GroupEntry>>)
    ensures r.Some? ==> |r.value| == |lines|
  {
    if lines == [] then Some([])
    else match (ParseGroupLine(lines[0]), ParseGroup(lines[1..]))
      case (Some(e), Some(es)) => Some([e] + es)
      case _ => None
  }

  /**
   * The first entry with the given gid, as getgrgid resolves it. It has the
   * shape of LookupUid; the two entry types differ, so each has its own lookup.
   */
  function LookupGid(entries: seq<GroupEntry>, gid: int): (r: Option<GroupEntry>)
    ensures r.Some? ==> r.value in entries && r.value.gid == gid
    ensures r.None? ==> forall i :: 0 <= i < |entries| ==> entries[i].gid != gid
  {
    if entries == [] then None
    else if entries[0].gid == gid then Some(entries[0])
    else LookupGid(entries[1..], gid)
  }

  lemma ParseGroupFields(e: GroupEntry)
    requires ':' !in e.name && ':' !in e.password && ':' !in e.members
    ensures ParseGroupLine(Join(GroupFields(e), ':')) == Some(e)
  {
    IntToStringHasNoColon(e.gid);
    SplitJoin(GroupFields(e), ':');
    ParseIntToString(e.gid);
  }

  lemma RootGroupLineFields()
    ensures RootGroupLine == Join(GroupFields(GroupEntry("root", "x", 0, "root")), ':')
  {
  }

  lemma HostGroupLineFields(info: SystemInfo)
    ensures HostGroupLine(info) == Join(GroupFields(GroupEntry(info.groupName, "x", info.groupId, info.userName)), ':')
  {
    Join4(info.groupName, "x", IntToString(info.groupId), info.userName, ':');
  }

  lemma ParseGroupOne(l: string, e: GroupEntry)
    requires ParseGroupLine(l) == Some(e)
    ensures ParseGroup([l]) == Some([e])
  {
    assert [l][1..] == [];
    assert ParseGroup([]) == Some([]);
    assert [e] + [] == [e];
  }

  lemma ParseGroupTwo(l1: string, e1: GroupEntry, l2: string, e2: GroupEntry)
    requires ParseGroupLine(l1) == Some(e1) && ParseGroupLine(l2) == Some(e2)
    ensures ParseGroup([l1, l2]) == Some([e1, e2])
  {
    assert [l1, l2][1..] == [l2];
    ParseGroupOne(l2, e2);
    assert [e1] + [e2] == [e1, e2];
  }

  function ExpectedGroupEntries(info: SystemInfo): seq<GroupEntry>
  {
    if info.groupId == 0 then [GroupEntry("root", "x", 0, "root")]
    else [GroupEntry("root", "x", 0, "root"), GroupEntry(info.groupName, "x", info.groupId, info.userName)]
  }

  /**
   * The group file reads back as root alone when the host gid is 0, otherwise
   * root followed by the host group, with the host gid and the host user as its
   * only member.
   */
  lemma GroupLinesParse(info: SystemInfo)
    requires ':' !in info.userName && ':' !in info.groupName
    ensures ParseGroup(GroupLines(info)) == Some(ExpectedGroupEntries(info))
  {
    var es := ExpectedGroupEntries(info);
    RootGroupLineFields();
    ParseGroupFields(es[0]);
    if info.groupId == 0 {
      ParseGroupOne(RootGroupLine, es[0]);
    } else {
      HostGroupLineFields(info);
      ParseGroupFields(es[1]);
      ParseGroupTwo(RootGroupLine, es[0], HostGroupLine(info), es[1]);
    }
  }

  /**
   * Inside the container the host gid resolves to exactly one group, named
   * root when the gid is 0 and the host group's name otherwise, and gid 0
   * always resolves to root.
   */
  lemma HostGroupResolves(info: SystemInfo)
    requires ':' !in info.userName && ':' !in info.groupName
    ensures var parsed := ParseGroup(GroupLines(info));
      parsed.Some? &&
      var es := parsed.value;
      (forall i, j :: 0 <= i < j < |es| ==> es[i].gid != es[j].gid) &&
      var g := LookupGid(es, info.groupId);
      g.Some? && g.value.name == (if info.groupId == 0 then "root" else info.groupName) &&
      g.value.members == (if info.groupId == 0 then "root" else info.userName) &&
      var r := LookupGid(es, 0);
      r.Some? && r.value.name == "root" && r.value.members == "root"
  {
    GroupLinesParse(info);
  }
}
