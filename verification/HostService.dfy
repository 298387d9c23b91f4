/** The parser of "serial:command" host services, and the printer it undoes. */
module HostService {
  import opened Common

  // ---- Scanning

  /** The first index from `from` on where `c` stands, or the length of `s`. */
  function Find(s: string, c: char, from: nat): (i: nat)
    requires from <= |s|
    ensures from <= i <= |s|
    ensures i < |s| ==> s[i] == c
    ensures forall j :: from <= j < i ==> s[j] != c
    decreases |s| - from
  {
    if from == |s| || s[from] == c then from else Find(s, c, from + 1)
  }

  predicate IsDigit(c: char) {
    '0' <= c <= '9'
  }

  predicate AllDigits(s: string) {
    forall i :: 0 <= i < |s| ==> IsDigit(s[i])
  }

  predicate Free(s: string, c: char) {
    forall i :: 0 <= i < |s| ==> s[i] != c
  }

  // ---- The words a serial can start with

  /** Words that start a serial with one more part, protocol names that are skipped, and
      names that stand for one more part after them. */
  datatype Grammar = Grammar(prefixes: seq<string>, protocols: seq<string>, extra: seq<string>)

  const ADB := Grammar(["usb", "product", "model", "device", "localfilesystem"], ["tcp", "udp"], ["vsock"])

  predicate Word(w: string) {
    w != "" && Free(w, ':') && w[0] != '[' && !IsDigit(w[0])
  }

  predicate Words(ws: seq<string>) {
    forall w :: w in ws ==> Word(w)
  }

  predicate Apart(a: seq<string>, b: seq<string>) {
    forall w :: w in a ==> w !in b
  }

  predicate Proper(g: Grammar) {
    && Words(g.prefixes) && Words(g.protocols) && Words(g.extra)
    && Apart(g.protocols, g.prefixes) && Apart(g.extra, g.prefixes) && Apart(g.extra, g.protocols)
  }

  /** The eight words of the parser. */
  lemma {:induction false} AdbIsProper()
    ensures Proper(ADB)
    ensures forall w :: w in ADB.prefixes <==> w in {"usb", "product", "model", "device", "localfilesystem"}
    ensures forall w :: w in ADB.protocols <==> w in {"tcp", "udp"}
    ensures forall w :: w in ADB.extra <==> w == "vsock"
  {
  }

  /** `s` starts with the word and a colon. */
  predicate StartsWith(s: string, w: string) {
    |w| < |s| && s[|w|] == ':' && forall j :: 0 <= j < |w| ==> s[j] == w[j]
  }

  lemma {:induction false} StartsWithIsPrefix(s: string, w: string)
    ensures StartsWith(s, w) <==> w + ":" <= s
  {
    if StartsWith(s, w) {
      assert s[..|w| + 1] == w + ":";
    }
  }

  /** What the first of `ws`, from the `i`th on, that `s` starts with takes of it. */
  function FirstMatch(ws: seq<string>, i: nat, s: string): (n: nat)
    requires i <= |ws|
    ensures n <= |s| && (0 < n ==> s[n - 1] == ':')
    decreases |ws| - i
  {
    if i == |ws| then 0
    else if StartsWith(s, ws[i]) then |ws[i]| + 1
    else FirstMatch(ws, i + 1, s)
  }

  // ---- The parser, as a function of where the command starts

  /** Splits before and after the colon that precedes index `k`. */
  function Finish(s: string, k: nat): Option<(string, string)>
    requires k <= |s|
  {
    if k == 0 || k == |s| then None else Some((s[..k - 1], s[k..]))
  }

  /** Skips to after the next colon; nothing if there is none. */
  function PastColon(s: string, k: nat): (r: Option<nat>)
    requires k <= |s|
    ensures r.Some? ==> k < r.value <= |s| && s[r.value - 1] == ':'
  {
    var i := Find(s, ':', k);
    if i == |s| then None else Some(i + 1)
  }

  /** The last step: skips a port between `k` and the next colon, if that is one. */
  function PastPort(s: string, k: nat): (k': nat)
    requires k <= |s|
    ensures k <= k' <= |s| && (k < k' ==> s[k' - 1] == ':')
  {
    var i := Find(s, ':', k);
    if i < |s| && AllDigits(s[k..i]) then i + 1 else k
  }

  /** The address: in brackets, or up to the next colon. */
  function PastAddress(s: string, k: nat): (r: Option<nat>)
    requires k <= |s|
    ensures r.Some? ==> k < r.value <= |s| && s[r.value - 1] == ':'
  {
    var end := Find(s, ']', k);
    if k < |s| && s[k] == '[' && end < |s|
    then if end + 1 < |s| && s[end + 1] == ':' then Some(end + 2) else None
    else PastColon(s, k)
  }

  /** Skips an extra name, if one stands at `k`. */
  function PastExtra(g: Grammar, s: string, k: nat): (k': nat)
    requires k <= |s|
    ensures k <= k' <= |s|
  {
    k + FirstMatch(g.extra, 0, s[k..])
  }

  /** The address from `k` on, a port if there is one, and the command. */
  function ParseAddress(s: string, k: nat): Option<(string, string)>
    requires k <= |s|
  {
    match PastAddress(s, k)
    case None => None
    case Some(k') => Finish(s, PastPort(s, k'))
  }

  /** One more part after a prefix of length `k`, and the command. */
  function ParseRest(s: string, k: nat): Option<(string, string)>
    requires k <= |s|
  {
    match PastColon(s, k)
    case None => None
    case Some(k') => Finish(s, k')
  }

  /** `parse_host_service`: the serial and the command. */
  function Parse(g: Grammar, s: string): Option<(string, string)> {
    if s == "" then None
    else
      var prefix, protocol := FirstMatch(g.prefixes, 0, s), FirstMatch(g.protocols, 0, s);
      if prefix != 0 then ParseRest(s, prefix)
      else if protocol == |s| then None
      else ParseAddress(s, PastExtra(g, s, protocol))
  }

  /** The printer: `format_host_command`. */
  function Print(serial: string, command: string): string {
    serial + ":" + command
  }

  // ---- Printing what was parsed

  predicate Prints(s: string, r: Option<(string, string)>) {
    r.Some? ==> Print(r.value.0, r.value.1) == s && r.value.1 != ""
  }

  lemma {:induction false} FinishPrints(s: string, k: nat)
    requires k <= |s| && (0 < k ==> s[k - 1] == ':')
    ensures Prints(s, Finish(s, k))
  {
    if 0 < k < |s| {
      assert s == s[..k - 1] + [s[k - 1]] + s[k..];
    }
  }

  lemma {:induction false} RestPrints(s: string, k: nat)
    requires k <= |s|
    ensures Prints(s, ParseRest(s, k))
  {
    if PastColon(s, k).Some? {
      FinishPrints(s, PastColon(s, k).value);
    }
  }

  lemma {:induction false} AddressPrints(s: string, k: nat)
    requires k <= |s|
    ensures Prints(s, ParseAddress(s, k))
  {
    if PastAddress(s, k).Some? {
      FinishPrints(s, PastPort(s, PastAddress(s, k).value));
    }
  }

  /** Parsing succeeds only on what printing the result gives back. */
  lemma {:induction false} PrintParse(g: Grammar, s: string)
    ensures Prints(s, Parse(g, s))
  {
    RestPrints(s, FirstMatch(g.prefixes, 0, s));
    AddressPrints(s, PastExtra(g, s, FirstMatch(g.protocols, 0, s)));
  }

  // ---- Which word a string starts with

  lemma {:induction false} SameWord(s: string, a: string, b: string)
    requires StartsWith(s, a) && StartsWith(s, b) && Free(a, ':') && Free(b, ':')
    ensures a == b
  {
  }

  /** A string that starts with a colon-free word starts with no other one. */
  lemma {:induction false} MatchWord(ws: seq<string>, i: nat, s: string, w: string)
    requires Words(ws) && i <= |ws| && StartsWith(s, w) && Free(w, ':')
    ensures FirstMatch(ws, i, s) == if w in ws[i..] then |w| + 1 else 0
    decreases |ws| - i
  {
    if i < |ws| {
      assert ws[i] in ws && ws[i..] == [ws[i]] + ws[i + 1..];
      if StartsWith(s, ws[i]) {
        SameWord(s, ws[i], w);
      } else {
        MatchWord(ws, i + 1, s, w);
      }
    }
  }

  lemma {:induction false} MatchAll(ws: seq<string>, s: string, w: string)
    requires Words(ws) && StartsWith(s, w) && Free(w, ':')
    ensures FirstMatch(ws, 0, s) == if w in ws then |w| + 1 else 0
  {
    MatchWord(ws, 0, s, w);
    assert ws[0..] == ws;
  }

  /** What was matched is one of the words. */
  lemma {:induction false} MatchIsWord(ws: seq<string>, i: nat, s: string) returns (w: string)
    requires i <= |ws| && FirstMatch(ws, i, s) > 0
    ensures w in ws && StartsWith(s, w) && FirstMatch(ws, i, s) == |w| + 1
    decreases |ws| - i
  {
    if StartsWith(s, ws[i]) {
      w := ws[i];
    } else {
      w := MatchIsWord(ws, i + 1, s);
    }
  }

  // ---- Where things stand in "serial:command"

  lemma {:induction false} FindIs(s: string, c: char, from: nat, i: nat)
    requires from <= i < |s| && s[i] == c && forall j :: from <= j < i ==> s[j] != c
    ensures Find(s, c, from) == i
  {
  }

  /** Before a colon the command starts with digits only. */
  predicate StartsLikePort(command: string) {
    var i := Find(command, ':', 0);
    i < |command| && AllDigits(command[..i])
  }

  lemma {:induction false} PortOfCommand(s: string, k: nat)
    requires k <= |s|
    ensures PastPort(s, k) == k <==> !StartsLikePort(s[k..])
  {
    var c := s[k..];
    var i := Find(c, ':', 0);
    if i < |c| {
      FindIs(s, ':', k, k + i);
      assert c[..i] == s[k..k + i];
    } else {
      assert forall j :: k <= j < |s| ==> s[j] == c[j - k];
    }
  }

  /** A result that ends elsewhere is another result. */
  lemma {:induction false} FinishExactly(s: string, k: nat)
    requires 0 < k < |s|
    ensures Finish(s, PastPort(s, k)) == Finish(s, k) <==> !StartsLikePort(s[k..])
  {
    PortOfCommand(s, k);
    if PastPort(s, k) != k {
      assert |s[..k - 1]| != |s[..PastPort(s, k) - 1]|;
    }
  }

  /** A serial and a command, as they stand in the printed string. */
  ghost predicate Printed(s: string, serial: string, command: string) {
    && |serial| + 1 < |s| && s[|serial|] == ':' && s[|serial| + 1..] == command
    && forall j :: 0 <= j < |serial| ==> s[j] == serial[j]
  }

  lemma {:induction false} PrintIsPrinted(serial: string, command: string)
    requires command != ""
    ensures Printed(Print(serial, command), serial, command)
  {
  }

  lemma {:induction false} PrintedFinish(s: string, serial: string, command: string)
    requires Printed(s, serial, command)
    ensures Finish(s, |serial| + 1) == Some((serial, command))
  {
    assert s[..|serial|] == serial;
  }

  predicate Unbracketed(host: string) {
    host != "" ==> host[0] != '['
  }

  // ---- The shapes of an address that stands from index `k` on

  /** A host and the digits of a port. */
  ghost predicate HostPort(r: string, host: string, port: string) {
    r == host + ":" + port && Free(host, ':') && Unbracketed(host) && AllDigits(port)
  }

  lemma {:induction false} HostAndPort(s: string, serial: string, command: string, k: nat, host: string, port: string)
    requires Printed(s, serial, command) && k <= |serial| && HostPort(serial[k..], host, port)
    ensures ParseAddress(s, k) == Some((serial, command))
  {
    var k' := k + |host| + 1;
    assert forall j :: k <= j < |serial| ==> s[j] == serial[k..][j - k];
    FindIs(s, ':', k, k + |host|);
    FindIs(s, ':', k', |serial|);
    assert s[k'..|serial|] == port;
    PrintedFinish(s, serial, command);
  }

  lemma {:induction false} HostAlone(s: string, serial: string, command: string, k: nat)
    requires Printed(s, serial, command) && k <= |serial| && Free(serial[k..], ':') && Unbracketed(serial[k..])
    ensures ParseAddress(s, k) == Some((serial, command)) <==> !StartsLikePort(command)
  {
    assert forall j :: k <= j < |serial| ==> s[j] == serial[k..][j - k];
    FindIs(s, ':', k, |serial|);
    AddressAlone(s, serial, command, k);
  }

  /** An address that ends where the serial does. */
  lemma {:induction false} AddressAlone(s: string, serial: string, command: string, k: nat)
    requires Printed(s, serial, command) && k <= |serial| && PastAddress(s, k) == Some(|serial| + 1)
    ensures ParseAddress(s, k) == Some((serial, command)) <==> !StartsLikePort(command)
  {
    PrintedFinish(s, serial, command);
    FinishExactly(s, |serial| + 1);
  }

  /** An IPv6 address in brackets, whose bracket closes at `end`, and the digits of a port. */
  predicate Bracketed(r: string, end: nat) {
    && end + 1 < |r| && r[0] == '[' && r[end] == ']' && r[end + 1] == ':'
    && Free(r[..end], ']') && AllDigits(r[end + 2..])
  }

  lemma {:induction false} BracketAndPort(s: string, serial: string, command: string, k: nat, end: nat)
    requires Printed(s, serial, command) && k <= |serial| && Bracketed(serial[k..], end)
    ensures ParseAddress(s, k) == Some((serial, command))
  {
    var k' := k + end + 2;
    BracketEnds(s, serial, command, k, end);
    FindIs(s, ':', k', |serial|);
    PrintedFinish(s, serial, command);
  }

  lemma {:induction false} BracketEnds(s: string, serial: string, command: string, k: nat, end: nat)
    requires Printed(s, serial, command) && k <= |serial| && Bracketed(serial[k..], end)
    ensures PastAddress(s, k) == Some(k + end + 2) && AllDigits(s[k + end + 2..|serial|])
    ensures forall j :: k + end + 2 <= j < |serial| ==> s[j] != ':'
  {
    var r, k' := serial[k..], k + end + 2;
    assert forall j :: k <= j < |serial| ==> s[j] == r[j - k];
    assert forall j :: 0 <= j < end ==> r[..end][j] == r[j];
    FindIs(s, ']', k, k + end);
    assert s[k'..|serial|] == r[end + 2..];
    assert forall j :: k' <= j < |serial| ==> s[j] == s[k'..|serial|][j - k'];
  }

  /** An address in brackets and nothing more. */
  predicate OnlyBracketed(r: string) {
    |r| >= 2 && r[0] == '[' && r[|r| - 1] == ']' && Free(r[..|r| - 1], ']')
  }

  lemma {:induction false} BracketAlone(s: string, serial: string, command: string, k: nat)
    requires Printed(s, serial, command) && k <= |serial| && OnlyBracketed(serial[k..])
    ensures ParseAddress(s, k) == Some((serial, command)) <==> !StartsLikePort(command)
  {
    var r, n := serial[k..], |serial| - 1;
    assert forall j :: k <= j < n ==> s[j] == serial[j] == r[..|r| - 1][j - k];
    FindIs(s, ']', k, n);
    AddressAlone(s, serial, command, k);
  }

  // ---- The names before an address

  function Name(w: Option<string>): string {
    if w.Some? then w.value + ":" else ""
  }

  /** The names are a protocol, an extra name, or both; the word after them is not one more. */
  ghost predicate NamesBefore(g: Grammar, p: Option<string>, e: Option<string>, next: string) {
    && (p.Some? ==> p.value in g.protocols) && (e.Some? ==> e.value in g.extra)
    && Free(next, ':') && (e.None? ==> next !in g.extra)
    && (p.None? && e.None? ==> next !in g.prefixes && next !in g.protocols)
  }

  lemma {:induction false} StartsAt(s: string, w: string, rest: string)
    requires w + ":" + rest <= s
    ensures StartsWith(s, w) && rest <= s[|w| + 1..]
  {
    assert (w + ":" + rest)[|w|] == ':';
    assert (w + ":" + rest)[|w| + 1..] == rest;
  }

  lemma {:induction false} ExtraIsSkipped(g: Grammar, s: string, e: Option<string>, next: string)
    requires Proper(g) && Name(e) + next + ":" <= s && (e.Some? ==> e.value in g.extra)
    requires Free(next, ':') && (e.None? ==> next !in g.extra)
    ensures FirstMatch(g.extra, 0, s) == |Name(e)|
  {
    if e.Some? {
      assert Name(e) + next + ":" == e.value + ":" + (next + ":");
      StartsAt(s, e.value, next + ":");
      MatchAll(g.extra, s, e.value);
    } else {
      assert Name(e) + next + ":" == next + ":" + "";
      StartsAt(s, next, "");
      MatchAll(g.extra, s, next);
    }
  }

  lemma {:induction false} ProtocolIsSkipped(g: Grammar, s: string, p: Option<string>, e: Option<string>, next: string)
    requires Proper(g) && NamesBefore(g, p, e, next) && Name(p) + (Name(e) + next + ":") <= s
    ensures FirstMatch(g.prefixes, 0, s) == 0 && FirstMatch(g.protocols, 0, s) == |Name(p)| < |s|
    ensures Name(e) + next + ":" <= s[|Name(p)|..]
  {
    var tail := Name(e) + next + ":";
    if p.Some? {
      FirstWord(g, s, p.value, tail);
    } else if e.Some? {
      assert tail == e.value + ":" + (next + ":");
      FirstWord(g, s, e.value, next + ":");
      assert s[0..] == s;
    } else {
      assert tail == next + ":" + "";
      FirstWord(g, s, next, "");
      assert s[0..] == s;
    }
  }

  lemma {:induction false} FirstWord(g: Grammar, s: string, w: string, rest: string)
    requires Proper(g) && w + ":" + rest <= s && Free(w, ':')
    ensures FirstMatch(g.prefixes, 0, s) == if w in g.prefixes then |w| + 1 else 0
    ensures FirstMatch(g.protocols, 0, s) == if w in g.protocols then |w| + 1 else 0
    ensures rest <= s[|w| + 1..]
  {
    StartsAt(s, w, rest);
    MatchAll(g.prefixes, s, w);
    MatchAll(g.protocols, s, w);
  }

  lemma {:induction false} NamesAreSkipped(g: Grammar, s: string, p: Option<string>, e: Option<string>, next: string, k: nat)
    requires Proper(g) && NamesBefore(g, p, e, next) && Name(p) + (Name(e) + next + ":") <= s
    requires k == |Name(p)| + |Name(e)|
    ensures k <= |s| && Parse(g, s) == ParseAddress(s, k)
  {
    ProtocolIsSkipped(g, s, p, e, next);
    ExtraIsSkipped(g, s[|Name(p)|..], e, next);
    ParseSkips(g, s, k);
  }

  lemma {:induction false} ParseSkips(g: Grammar, s: string, k: nat)
    requires FirstMatch(g.prefixes, 0, s) == 0 && FirstMatch(g.protocols, 0, s) < |s|
    requires k == PastExtra(g, s, FirstMatch(g.protocols, 0, s))
    ensures Parse(g, s) == ParseAddress(s, k)
  {
  }

  // ---- Round trips

  predicate Reserved(g: Grammar, w: string) {
    w in g.prefixes || w in g.protocols || w in g.extra
  }

  lemma {:induction false} PrintedIs(s: string, serial: string, command: string)
    requires Printed(s, serial, command)
    ensures serial + ":" <= s
  {
  }

  /** An address that starts after the serial ends after it too. */
  lemma {:induction false} EndsLater(s: string, k: nat, serial: string, command: string)
    requires k <= |s| && |serial| < k
    ensures ParseAddress(s, k) != Some((serial, command)) && ParseRest(s, k) != Some((serial, command))
  {
  }

  /** After one of the words that start a serial there is one more part, whatever it is. */
  lemma {:induction false} PrefixRoundTrip(g: Grammar, prefix: string, rest: string, command: string)
    requires Proper(g) && prefix in g.prefixes && command != ""
    ensures var serial := prefix + ":" + rest;
      Parse(g, Print(serial, command)) == Some((serial, command)) <==> Free(rest, ':')
  {
    var serial := prefix + ":" + rest;
    PrintIsPrinted(serial, command);
    PrintedPrefix(g, Print(serial, command), serial, command, prefix, rest);
  }

  lemma {:induction false} PrintedPrefix(g: Grammar, s: string, serial: string, command: string, prefix: string, rest: string)
    requires Proper(g) && Printed(s, serial, command) && serial == prefix + ":" + rest && prefix in g.prefixes
    ensures Parse(g, s) == Some((serial, command)) <==> Free(rest, ':')
  {
    var k := |prefix| + 1;
    PrintedIs(s, serial, command);
    assert serial + ":" == prefix + ":" + (rest + ":");
    StartsAt(s, prefix, rest + ":");
    MatchAll(g.prefixes, s, prefix);
    assert forall j :: k <= j < |serial| ==> s[j] == serial[j] == rest[j - k];
    var i := Find(s, ':', k);
    if Free(rest, ':') {
      FindIs(s, ':', k, |serial|);
      PrintedFinish(s, serial, command);
    } else {
      var j :| 0 <= j < |rest| && rest[j] == ':';
      assert s[k + j] == ':';
      assert i <= k + j < |serial|;
      assert |s[..i]| != |serial|;
    }
  }

  /** A serial without a colon comes back exactly when it is none of the reserved words and
      the command does not start like a port. */
  lemma {:induction false} PlainRoundTrip(g: Grammar, serial: string, command: string)
    requires Proper(g) && Free(serial, ':') && Unbracketed(serial) && command != ""
    ensures Parse(g, Print(serial, command)) == Some((serial, command))
      <==> !Reserved(g, serial) && !StartsLikePort(command)
  {
    PrintIsPrinted(serial, command);
    PrintedPlain(g, Print(serial, command), serial, command);
  }

  lemma {:induction false} PrintedPlain(g: Grammar, s: string, serial: string, command: string)
    requires Proper(g) && Printed(s, serial, command) && Free(serial, ':') && Unbracketed(serial)
    ensures Parse(g, s) == Some((serial, command)) <==> !Reserved(g, serial) && !StartsLikePort(command)
  {
    PrintedIs(s, serial, command);
    if Reserved(g, serial) {
      ReservedIsSkipped(g, s, serial, command);
    } else {
      assert Name(None) + (Name(None) + serial + ":") == serial + ":";
      NamesAreSkipped(g, s, None, None, serial, 0);
      assert serial[0..] == serial;
      HostAlone(s, serial, command, 0);
    }
  }

  lemma {:induction false} ReservedIsSkipped(g: Grammar, s: string, serial: string, command: string)
    requires Proper(g) && Printed(s, serial, command) && Reserved(g, serial)
    ensures Parse(g, s) != Some((serial, command))
  {
    MatchAll(g.prefixes, s, serial);
    MatchAll(g.protocols, s, serial);
    MatchAll(g.extra, s, serial);
    assert s[0..] == s;
    var k := |serial| + 1;
    if serial in g.prefixes {
      EndsLater(s, k, serial, command);
    } else {
      EndsLater(s, PastExtra(g, s, if serial in g.protocols then k else 0), serial, command);
    }
  }

  lemma {:induction false} SerialParts(a: string, b: string, host: string, rest: string)
    ensures (a + b + (host + ":" + rest)) + ":" == a + (b + host + ":") + (rest + ":")
    ensures (a + b + (host + ":" + rest))[|a| + |b|..] == host + ":" + rest
    ensures a + (b + host + ":") <= (a + b + (host + ":" + rest)) + ":"
  {
  }

  lemma {:induction false} PrintedAddress(g: Grammar, s: string, p: Option<string>, e: Option<string>, next: string,
                       serial: string, command: string, k: nat)
    requires Proper(g) && NamesBefore(g, p, e, next) && Printed(s, serial, command)
    requires Name(p) + (Name(e) + next + ":") <= serial + ":" && k == |Name(p)| + |Name(e)|
    ensures k <= |s| && Parse(g, s) == ParseAddress(s, k)
  {
    PrintedIs(s, serial, command);
    NamesAreSkipped(g, s, p, e, next, k);
  }

  /** After the names, a host alone comes back exactly when the command does not start like
      a port. */
  lemma {:induction false} HostRoundTrip(g: Grammar, p: Option<string>, e: Option<string>, host: string, command: string)
    requires Proper(g) && NamesBefore(g, p, e, host) && Unbracketed(host) && command != ""
    ensures var serial := Name(p) + Name(e) + host;
      Parse(g, Print(serial, command)) == Some((serial, command)) <==> !StartsLikePort(command)
  {
    var names := Name(p) + Name(e);
    var serial := names + host;
    PrintIsPrinted(serial, command);
    assert serial + ":" == Name(p) + (Name(e) + host + ":");
    PrintedAddress(g, Print(serial, command), p, e, host, serial, command, |names|);
    assert serial[|names|..] == host;
    HostAlone(Print(serial, command), serial, command, |names|);
  }

  /** After the names, a host and a port always come back. */
  lemma {:induction false} AddressRoundTrip(g: Grammar, p: Option<string>, e: Option<string>, host: string, port: string, command: string)
    requires Proper(g) && NamesBefore(g, p, e, host) && Unbracketed(host) && AllDigits(port) && command != ""
    ensures var serial := Name(p) + Name(e) + (host + ":" + port);
      Parse(g, Print(serial, command)) == Some((serial, command))
  {
    var names := Name(p) + Name(e);
    var serial := names + (host + ":" + port);
    PrintIsPrinted(serial, command);
    SerialParts(Name(p), Name(e), host, port);
    PrintedAddress(g, Print(serial, command), p, e, host, serial, command, |names|);
    HostAndPort(Print(serial, command), serial, command, |names|, host, port);
  }

  /** A port after a name that is skipped is taken for the host. */
  lemma {:induction false} SkippedHost(g: Grammar, host: string, port: string, command: string)
    requires Proper(g) && (host in g.protocols || host in g.extra) && AllDigits(port) && command != ""
    ensures var serial := host + ":" + port;
      Parse(g, Print(serial, command)) == Some((serial, command)) <==> !StartsLikePort(command)
  {
    DigitsAreNoWord(g, port);
    var serial := host + ":" + port;
    if host in g.protocols {
      assert Name(Some(host)) + Name(None) + port == serial;
      HostRoundTrip(g, Some(host), None, port, command);
    } else {
      assert Name(None) + Name(Some(host)) + port == serial;
      HostRoundTrip(g, None, Some(host), port, command);
    }
  }

  /** Host and port: the parser gives back the serial and the command, unless the host is
      one of the names it skips and the command starts like a port; and exactly then it does
      not. */
  lemma {:induction false} HostPortRoundTrip(g: Grammar, host: string, port: string, command: string)
    requires Proper(g) && Free(host, ':') && Unbracketed(host) && AllDigits(port) && command != ""
    ensures var serial := host + ":" + port;
      Parse(g, Print(serial, command)) == Some((serial, command))
      <==> !((host in g.protocols || host in g.extra) && StartsLikePort(command))
  {
    var serial := host + ":" + port;
    if host in g.protocols || host in g.extra {
      SkippedHost(g, host, port, command);
    } else if host in g.prefixes {
      PrefixRoundTrip(g, host, port, command);
    } else {
      assert Name(None) + Name(None) + (host + ":" + port) == serial;
      AddressRoundTrip(g, None, None, host, port, command);
    }
  }

  lemma {:induction false} DigitsAreNoWord(g: Grammar, port: string)
    requires Proper(g) && AllDigits(port)
    ensures !Reserved(g, port) && Free(port, ':') && Unbracketed(port)
  {
  }

  /** An address in brackets, after any names: with a port it always comes back. */
  lemma {:induction false} BracketRoundTrip(g: Grammar, p: Option<string>, e: Option<string>, r: string, end: nat, command: string)
    requires Proper(g) && (p.Some? ==> p.value in g.protocols) && (e.Some? ==> e.value in g.extra)
    requires Bracketed(r, end) && command != ""
    ensures var serial := Name(p) + Name(e) + r; Parse(g, Print(serial, command)) == Some((serial, command))
  {
    var k := |Name(p)| + |Name(e)|;
    var serial := BracketAddress(g, p, e, r, command, k);
    BracketAndPort(Print(serial, command), serial, command, k, end);
  }

  /** Without one, exactly when the command does not start like a port. */
  lemma {:induction false} BracketAloneRoundTrip(g: Grammar, p: Option<string>, e: Option<string>, r: string, command: string)
    requires Proper(g) && (p.Some? ==> p.value in g.protocols) && (e.Some? ==> e.value in g.extra)
    requires OnlyBracketed(r) && command != ""
    ensures var serial := Name(p) + Name(e) + r;
      Parse(g, Print(serial, command)) == Some((serial, command)) <==> !StartsLikePort(command)
  {
    var k := |Name(p)| + |Name(e)|;
    var serial := BracketAddress(g, p, e, r, command, k);
    BracketAlone(Print(serial, command), serial, command, k);
  }

  lemma {:induction false} BracketAddress(g: Grammar, p: Option<string>, e: Option<string>, r: string, command: string, k: nat) returns (serial: string)
    requires Proper(g) && k == |Name(p)| + |Name(e)|
    requires (p.Some? ==> p.value in g.protocols) && (e.Some? ==> e.value in g.extra)
    requires r != "" && r[0] == '[' && command != ""
    ensures serial == Name(p) + Name(e) + r && serial[k..] == r
    ensures Printed(Print(serial, command), serial, command)
    ensures Parse(g, Print(serial, command)) == ParseAddress(Print(serial, command), k)
  {
    serial := Name(p) + Name(e) + r;
    var i := Find(r, ':', 0);
    BracketIsNoWord(g, r, i);
    FirstPart(Name(p), Name(e), r, i);
    PrintIsPrinted(serial, command);
    PrintedAddress(g, Print(serial, command), p, e, r[..i], serial, command, k);
  }

  lemma {:induction false} FirstPart(a: string, b: string, r: string, i: nat)
    requires i <= |r| && (i < |r| ==> r[i] == ':')
    ensures a + (b + r[..i] + ":") <= a + b + r + ":" && (a + b + r)[|a| + |b|..] == r
  {
    assert r + ":" == r[..i] + ":" + (r + ":")[i + 1..];
    assert a + b + r + ":" == a + (b + r[..i] + ":") + (r + ":")[i + 1..];
  }

  lemma {:induction false} BracketIsNoWord(g: Grammar, r: string, i: nat)
    requires Proper(g) && r != "" && r[0] == '[' && 0 < i <= |r|
    ensures !Reserved(g, r[..i])
  {
    assert r[..i][0] == '[';
  }

  // ---- A string of names only

  /** From index `k` on there is nothing but the name and a colon. */
  predicate NameAt(s: string, k: nat, w: string) {
    |s| == k + |w| + 1 && s[k + |w|] == ':' && forall j :: 0 <= j < |w| ==> s[k + j] == w[j]
  }

  /** Nothing but an extra name, or a protocol and an extra name. */
  ghost predicate OnlyNames(g: Grammar, s: string) {
    exists w :: w in g.extra &&
      (NameAt(s, 0, w) || exists p :: p in g.protocols && StartsWith(s, p) && NameAt(s, |p| + 1, w))
  }

  lemma {:induction false} NameIsMatched(ws: seq<string>, s: string, k: nat, w: string)
    requires Words(ws) && w in ws && NameAt(s, k, w)
    ensures FirstMatch(ws, 0, s[k..]) == |s| - k
  {
    MatchAll(ws, s[k..], w);
  }

  lemma {:induction false} OnlyNamesLeaveNothing(g: Grammar, s: string)
    requires Proper(g) && OnlyNames(g, s)
    ensures PastExtra(g, s, FirstMatch(g.protocols, 0, s)) == |s|
  {
    var w :| w in g.extra &&
      (NameAt(s, 0, w) || exists p :: p in g.protocols && StartsWith(s, p) && NameAt(s, |p| + 1, w));
    if NameAt(s, 0, w) {
      MatchAll(g.protocols, s, w);
      NameIsMatched(g.extra, s, 0, w);
    } else {
      var p :| p in g.protocols && StartsWith(s, p) && NameAt(s, |p| + 1, w);
      MatchAll(g.protocols, s, p);
      NameIsMatched(g.extra, s, |p| + 1, w);
    }
  }

  lemma {:induction false} MatchedIsName(ws: seq<string>, s: string, k: nat) returns (w: string)
    requires k < |s| && FirstMatch(ws, 0, s[k..]) == |s| - k
    ensures w in ws && NameAt(s, k, w)
  {
    w := MatchIsWord(ws, 0, s[k..]);
    assert forall j :: 0 <= j < |s| - k ==> s[k..][j] == s[k + j];
  }

  lemma {:induction false} NothingLeftIsNames(g: Grammar, s: string)
    requires FirstMatch(g.protocols, 0, s) < |s| && PastExtra(g, s, FirstMatch(g.protocols, 0, s)) == |s|
    ensures OnlyNames(g, s)
  {
    var k := FirstMatch(g.protocols, 0, s);
    var w := MatchedIsName(g.extra, s, k);
    if k != 0 {
      var p := MatchIsWord(g.protocols, 0, s);
    }
  }

  /** What this means for the serials of the parser: a host that is no skipped name with a
      port, a part after one of the five prefixes, and a host with a port after tcp, udp or
      vsock come back with every command that is not empty. */
  lemma {:induction false} AdbSerials(host: string, port: string, command: string)
    requires Free(host, ':') && Unbracketed(host) && AllDigits(port) && command != ""
    ensures host !in {"tcp", "udp", "vsock"} ==>
      Parse(ADB, Print(host + ":" + port, command)) == Some((host + ":" + port, command))
    ensures forall w :: w in {"usb", "product", "model", "device", "localfilesystem"} ==>
      Parse(ADB, Print(w + ":" + host, command)) == Some((w + ":" + host, command))
    ensures host != "vsock" ==> forall w :: w in {"tcp", "udp"} ==>
      Parse(ADB, Print(w + ":" + (host + ":" + port), command)) == Some((w + ":" + (host + ":" + port), command))
    ensures Parse(ADB, Print("vsock:" + (host + ":" + port), command)) == Some(("vsock:" + (host + ":" + port), command))
  {
    AdbIsProper();
    HostPortRoundTrip(ADB, host, port, command);
    forall w | w in {"usb", "product", "model", "device", "localfilesystem"}
      ensures Parse(ADB, Print(w + ":" + host, command)) == Some((w + ":" + host, command))
    {
      PrefixRoundTrip(ADB, w, host, command);
    }
    forall w | w in {"tcp", "udp"} && host != "vsock"
      ensures Parse(ADB, Print(w + ":" + (host + ":" + port), command)) == Some((w + ":" + (host + ":" + port), command))
    {
      AdbAddress(Some(w), None, host, port, command);
      assert Name(Some(w)) + Name(None) == w + ":";
    }
    AdbAddress(None, Some("vsock"), host, port, command);
    assert Name(None) + Name(Some("vsock")) == "vsock:";
  }

  lemma {:induction false} AdbAddress(p: Option<string>, e: Option<string>, host: string, port: string, command: string)
    requires NamesBefore(ADB, p, e, host) && Unbracketed(host) && AllDigits(port) && command != ""
    ensures var serial := Name(p) + Name(e) + (host + ":" + port); Parse(ADB, Print(serial, command)) == Some((serial, command))
  {
    AdbIsProper();
    AddressRoundTrip(ADB, p, e, host, port, command);
  }

  /** After skipping the names, the parser looks at the first character of a command that is
      empty exactly when the input is nothing but names; it fails on such input anyway. */
  lemma {:induction false} EmptyCommandExactlyWhen(g: Grammar, s: string)
    requires Proper(g) && s != "" && FirstMatch(g.prefixes, 0, s) == 0 && FirstMatch(g.protocols, 0, s) != |s|
    ensures PastExtra(g, s, FirstMatch(g.protocols, 0, s)) == |s| <==> OnlyNames(g, s)
    ensures OnlyNames(g, s) ==> Parse(g, s) == None
  {
    if OnlyNames(g, s) {
      OnlyNamesLeaveNothing(g, s);
    } else if PastExtra(g, s, FirstMatch(g.protocols, 0, s)) == |s| {
      NothingLeftIsNames(g, s);
    }
  }

  // ---- The parser in its imperative form

  /** The two views are `full[..k]` and `full[k..]`: `consume` moves `k`. */
  method Consume(full: string, k: nat, count: nat) returns (k': nat)
    requires k + count <= |full|
    ensures k' == k + count
  {
    k' := k + count;
  }

  method FindFirst(full: string, c: char, from: nat) returns (i: nat)
    requires from <= |full|
    ensures i == Find(full, c, from)
  {
    i := from;
    while i < |full| && full[i] != c
      invariant from <= i <= |full| && Find(full, c, from) == Find(full, c, i)
    {
      i := i + 1;
    }
  }

  method IsPort(port: string) returns (valid: bool)
    ensures valid == AllDigits(port)
  {
    for i := 0 to |port|
      invariant AllDigits(port[..i])
    {
      if !IsDigit(port[i]) {
        return false;
      }
    }
    assert port[..|port|] == port;
    return true;
  }

  /** `finish`: drops the trailing colon of the serial; its check that it is one holds. */
  method FinishAt(full: string, k: nat) returns (r: Option<(string, string)>)
    requires k <= |full| && (0 < k ==> full[k - 1] == ':')
    ensures r == Finish(full, k)
  {
    if k == 0 || k == |full| {
      return None;
    }
    assert full[k - 1] == ':';
    return Some((full[..k - 1], full[k..]));
  }

  method FindWord(words: seq<string>, view: string) returns (n: nat)
    ensures n == FirstMatch(words, 0, view)
  {
    for i := 0 to |words|
      invariant FirstMatch(words, 0, view) == FirstMatch(words, i, view)
    {
      StartsWithIsPrefix(view, words[i]);
      if words[i] + ":" <= view {
        return |words[i]| + 1;
      }
    }
    return 0;
  }

  method SkipAddress(full: string, start: nat) returns (r: Option<nat>)
    requires start <= |full|
    ensures r == PastAddress(full, start)
  {
    var k := start;
    if k < |full| && full[k] == '[' {
      var end := FindFirst(full, ']', k);
      if end != |full| {
        k := Consume(full, k, end + 1 - k);
        if k == |full| {
          return None;
        } else if full[k] != ':' {
          return None;
        }
        k := Consume(full, k, 1);
        return Some(k);
      }
    }
    var colon := FindFirst(full, ':', k);
    if colon == |full| {
      return None;
    }
    k := Consume(full, k, colon + 1 - k);
    return Some(k);
  }

  method ParseFrom(full: string, start: nat) returns (r: Option<(string, string)>)
    requires start <= |full|
    ensures r == ParseAddress(full, start)
  {
    var address := SkipAddress(full, start);
    if address == None {
      return None;
    }
    var k := address.value;
    var colon := FindFirst(full, ':', k);
    if colon != |full| {
      var valid := IsPort(full[k..colon]);
      if valid {
        k := Consume(full, k, colon + 1 - k);
      }
    }
    r := FinishAt(full, k);
  }

  /** One more part after a prefix that ends at `start`. */
  method ParsePrefixed(full: string, start: nat) returns (r: Option<(string, string)>)
    requires start <= |full|
    ensures r == ParseRest(full, start)
  {
    var colon := FindFirst(full, ':', start);
    if colon == |full| {
      return None;
    }
    var k := Consume(full, start, colon + 1 - start);
    r := FinishAt(full, k);
  }

  method ParseHostService(g: Grammar, full: string) returns (r: Option<(string, string)>)
    ensures r == Parse(g, full)
  {
    if full == "" {
      return None;
    }
    var k := FindWord(g.prefixes, full);
    if k != 0 {
      r := ParsePrefixed(full, k);
      return;
    }
    var protocol := FindWord(g.protocols, full);
    k := Consume(full, k, protocol);
    if k == |full| {
      return None;
    }
    var extra := FindWord(g.extra, full[k..]);
    k := Consume(full, k, extra);
    r := ParseFrom(full, k);
    ParseSkips(g, full, k);
  }
}
