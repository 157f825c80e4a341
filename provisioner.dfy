/** The project provisioner (`create_next_gen_projects`): for each
    application, derives the project identifier from the name, draws a
    display colour, posts a project-creation request and records the
    identifier on the application itself. The random draw and the server's
    replies are inputs; the posted payloads are outputs. */
module Provisioner {
  import opened Common
  import opened Applications

  /** `[0-9a-zA-Z]`: the characters `re.sub('[^0-9a-zA-Z]+', '', ...)` keeps. */
  predicate IsAsciiAlnum(c: char)
  {
    ('0' <= c <= '9') || ('a' <= c <= 'z') || ('A' <= c <= 'Z')
  }

  /** The project identifier: the name with every character outside
      `[0-9a-zA-Z]` removed. */
  function Identifier(name: string): (id: string)
    ensures forall i :: 0 <= i < |id| ==> IsAsciiAlnum(id[i])
  {
    Filter(name, IsAsciiAlnum)
  }

  /** The identifier is exactly the name's ASCII letters and digits in
      order: it is obtained from the name by deleting characters, and every
      letters-and-digits string obtained that way is obtained from it. */
  lemma IdentifierIsAlnumSubsequence(name: string, t: string)
    ensures IsSubseq(Identifier(name), name)
    ensures IsSubseq(t, name) && (forall i :: 0 <= i < |t| ==> IsAsciiAlnum(t[i])) ==> IsSubseq(t, Identifier(name))
  {
    FilterIsSubseq(name, IsAsciiAlnum);
    if IsSubseq(t, name) && (forall i :: 0 <= i < |t| ==> IsAsciiAlnum(t[i])) {
      FilterIsLargest(t, name, IsAsciiAlnum);
    }
  }

  /** Sanitising twice gives the same identifier, and a name that is already
      letters and digits is its own identifier. */
  lemma IdentifierIdempotent(name: string)
    ensures Identifier(Identifier(name)) == Identifier(name)
    ensures (forall i :: 0 <= i < |name| ==> IsAsciiAlnum(name[i])) ==> Identifier(name) == name
  {
    FilterIdempotent(name, IsAsciiAlnum);
    if forall i :: 0 <= i < |name| ==> IsAsciiAlnum(name[i]) {
      FilterKeepsAll(name, IsAsciiAlnum);
    }
  }

  /** The identifier is empty exactly when the name holds no ASCII letter or
      digit (an all-symbol name collapses to ""). */
  lemma IdentifierEmpty(name: string)
    ensures Identifier(name) == "" <==> forall i :: 0 <= i < |name| ==> !IsAsciiAlnum(name[i])
  {
    FilterMembers(name, IsAsciiAlnum);
    if Identifier(name) != "" {
      assert Identifier(name)[0] in name;
    }
  }

  /** Colours are drawn with `random.randrange(0, 2 ** 24)`. */
  const ColourSpace: nat := 0x100_0000

  predicate IsHexChar(c: char)
  {
    ('0' <= c <= '9') || ('a' <= c <= 'f')
  }

  function DigitValue(c: char): (d: nat)
    requires IsHexChar(c)
    ensures d < 16
  {
    if c <= '9' then c as int - '0' as int else c as int - 'a' as int + 10
  }

  /** The lower-case hexadecimal digit of `d`, as Python's `hex` writes it. */
  function HexDigit(d: nat): (c: char)
    requires d < 16
    ensures IsHexChar(c) && DigitValue(c) == d
  {
    if d < 10 then ('0' as int + d) as char else ('a' as int + d - 10) as char
  }

  /** `hex(n)[2:]`: the lower-case hexadecimal digits of `n`, most
      significant first, without leading zeros ("0" for zero). */
  function Hex(n: nat): (h: string)
    ensures |h| >= 1
    ensures forall i :: 0 <= i < |h| ==> IsHexChar(h[i])
    ensures n > 0 ==> h[0] != '0'
    decreases n
  {
    if n < 16 then [HexDigit(n)] else Hex(n / 16) + [HexDigit(n % 16)]
  }

  /** The number a string of hexadecimal digits denotes. */
  function HexValue(h: string): nat
    requires forall i :: 0 <= i < |h| ==> IsHexChar(h[i])
  {
    if h == [] then 0 else HexValue(h[..|h| - 1]) * 16 + DigitValue(h[|h| - 1])
  }

  lemma {:induction false} HexRoundTrip(n: nat)
    ensures HexValue(Hex(n)) == n
    decreases n
  {
    if n >= 16 {
      HexRoundTrip(n / 16);
      var h := Hex(n);
      assert h[..|h| - 1] == Hex(n / 16);
    }
  }

  function Pow16(k: nat): nat
  {
    if k == 0 then 1 else 16 * Pow16(k - 1)
  }

  /** `Hex(n)` has at most `k` digits exactly when `n < 16^k`. */
  lemma {:induction false} HexLength(n: nat, k: nat)
    requires k >= 1
    ensures |Hex(n)| <= k <==> n < Pow16(k)
    decreases n
  {
    PowAtLeast16(k);
    if n >= 16 {
      if k == 1 {
        assert |Hex(n)| == |Hex(n / 16)| + 1;
      } else {
        HexLength(n / 16, k - 1);
        assert n / 16 < Pow16(k - 1) <==> n < 16 * Pow16(k - 1);
      }
    }
  }

  lemma {:induction false} PowAtLeast16(k: nat)
    requires k >= 1
    ensures Pow16(k) >= 16
  {
    if k > 1 {
      PowAtLeast16(k - 1);
    }
  }

  /** The project colour: `'#'` then `hex(n)[2:]`. */
  function Colour(n: nat): (c: string)
    ensures 2 <= |c| && c[0] == '#'
    ensures forall i :: 1 <= i < |c| ==> IsHexChar(c[i])
  {
    "#" + Hex(n)
  }

  /** For every draw in `[0, 2^24)` the colour is `#` and one to six
      lower-case hex digits denoting the draw; it has the full `#rrggbb`
      width only for draws of at least 0x100000, because the digits are not
      zero-padded. */
  lemma ColourFormat(n: nat)
    requires n < ColourSpace
    ensures var c := Colour(n);
      2 <= |c| <= 7 && c[0] == '#' &&
      (forall i :: 1 <= i < |c| ==> IsHexChar(c[i])) &&
      HexValue(c[1..]) == n &&
      (|c| == 7 <==> n >= 0x10_0000)
  {
    HexRoundTrip(n);
    HexLength(n, 6);
    HexLength(n, 5);
    assert Pow16(5) == 0x10_0000;
    assert Pow16(6) == 0x100_0000;
    assert Colour(n)[1..] == Hex(n);
  }

  /** The modules every created project enables. */
  const Modules: seq<string> :=
    ["CD", "CI", "CV", "CF", "CE", "STO", "CHAOS", "SRM", "IACM", "CET", "CODE", "CORE", "PMS",
     "TEMPLATESERVICE"]

  /** The `project` object of a creation request. */
  datatype Project = Project(orgIdentifier: string, modules: seq<string>, identifier: string,
                             name: string, description: string, color: string)

  /** The decoded creation response: its `status` and `message`. */
  datatype CreateReply = CreateReply(status: string, message: string)

  /** The project posted for application `a` with colour draw `n`. */
  function ProjectFor(org: string, a: Application, n: nat): Project
  {
    Project(org, Modules, Identifier(a.name), a.name, a.description, Colour(n))
  }

  /** What each posted payload carries: the fixed organisation and module
      list, an identifier made of the name's letters and digits in order,
      the name and description as they are, and a colour that is `#` then
      hexadecimal digits denoting the draw. */
  lemma ProjectForFields(org: string, a: Application, n: nat)
    ensures var p := ProjectFor(org, a, n);
      p.orgIdentifier == org && p.modules == Modules &&
      p.name == a.name && p.description == a.description
    ensures var p := ProjectFor(org, a, n);
      IsSubseq(p.identifier, a.name) && (forall i :: 0 <= i < |p.identifier| ==> IsAsciiAlnum(p.identifier[i])) &&
      forall t: string :: IsSubseq(t, a.name) && (forall i :: 0 <= i < |t| ==> IsAsciiAlnum(t[i])) ==> IsSubseq(t, p.identifier)
    ensures var p := ProjectFor(org, a, n);
      2 <= |p.color| && p.color[0] == '#' &&
      (forall i :: 1 <= i < |p.color| ==> IsHexChar(p.color[i])) &&
      HexValue(p.color[1..]) == n && (n > 0 ==> p.color[1] != '0') &&
      (n < ColourSpace ==> |p.color| <= 7)
  {
    IdentifierIsAlnumSubsequence(a.name, []);
    forall t: string | IsSubseq(t, a.name) && (forall i :: 0 <= i < |t| ==> IsAsciiAlnum(t[i]))
      ensures IsSubseq(t, Identifier(a.name))
    {
      IdentifierIsAlnumSubsequence(a.name, t);
    }
    HexRoundTrip(n);
    assert Colour(n)[1..] == Hex(n);
    if n < ColourSpace {
      ColourFormat(n);
    }
  }

  /** The server's answer reports a failure. */
  predicate IsError(r: CreateReply)
  {
    r.status == "ERROR"
  }

  /** The messages logged as warnings: those of replies whose status is
      `ERROR`, in order. */
  function Warnings(replies: seq<CreateReply>): (w: seq<string>)
    ensures |w| <= |replies|
  {
    if replies == [] then []
    else (if IsError(replies[0]) then [replies[0].message] else []) + Warnings(replies[1..])
  }

  /** The warnings are the messages of the `ERROR` replies, in reply order:
      one per `ERROR` reply and none for any other. */
  lemma {:induction false} WarningsAreErrorMessages(replies: seq<CreateReply>)
    ensures |Warnings(replies)| == |Filter(replies, IsError)|
    ensures forall i :: 0 <= i < |Warnings(replies)| ==> Warnings(replies)[i] == Filter(replies, IsError)[i].message
  {
    if replies != [] {
      WarningsAreErrorMessages(replies[1..]);
      var rest := Filter(replies[1..], IsError);
      assert Filter(replies, IsError) == (if IsError(replies[0]) then [replies[0]] else []) + rest;
    }
  }

  /** The warnings from the i-th reply on. */
  lemma WarningsFrom(replies: seq<CreateReply>, i: nat)
    requires i < |replies|
    ensures Warnings(replies[i..])
            == (if IsError(replies[i]) then [replies[i].message] else []) + Warnings(replies[i + 1..])
  {
    assert replies[i..][1..] == replies[i + 1..];
  }

  /** `create_next_gen_projects`: sets each application's identifier in
      place, posts one project per application in list order, and returns the
      same list whatever the server replied. `draws[i]` is the random colour
      number of the i-th request and `replies[i]` the server's answer to it. */
  method CreateNextGenProjects(applications: seq<Application>, org: string,
                               draws: seq<nat>, replies: seq<CreateReply>)
    returns (result: seq<Application>, posted: seq<Project>, warnings: seq<string>)
    requires |draws| == |applications| && |replies| == |applications|
    requires forall i :: 0 <= i < |draws| ==> draws[i] < ColourSpace
    modifies set a | a in applications
    ensures result == applications
    ensures forall a :: a in applications ==> a.identifier == Some(Identifier(a.name))
    ensures |posted| == |applications|
    ensures forall i :: 0 <= i < |applications| ==> posted[i] == ProjectFor(org, applications[i], draws[i])
    ensures warnings == Warnings(replies)
  {
    posted := [];
    warnings := [];
    var payload := Project(org, Modules, "", "", "", "");
    for i := 0 to |applications|
      invariant |posted| == i
      invariant payload.orgIdentifier == org && payload.modules == Modules
      invariant forall j :: 0 <= j < i ==> posted[j] == ProjectFor(org, applications[j], draws[j])
      invariant forall j :: 0 <= j < i ==> applications[j].identifier == Some(Identifier(applications[j].name))
      invariant warnings + Warnings(replies[i..]) == Warnings(replies)
    {
      var application := applications[i];
      application.identifier := Some(Identifier(application.name));
      payload := payload.(identifier := application.identifier.value, name := application.name,
                          description := application.description, color := Colour(draws[i]));
      assert payload == ProjectFor(org, application, draws[i]);
      posted := posted + [payload];
      WarningsFrom(replies, i);
      Regroup3(warnings, if IsError(replies[i]) then [replies[i].message] else [], Warnings(replies[i + 1..]));
      warnings := warnings + if IsError(replies[i]) then [replies[i].message] else [];
    }
    assert replies[|replies|..] == [];
    result := applications;
  }
}
