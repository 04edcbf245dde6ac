/** Ids and dedupe keys as text (nextID in memstore/memstore.go, the constructors in
    domain/job.go): different keys never print the same, so comparing keys as values is
    comparing the texts. */
module Keys {
  import opened Common
  import opened Decimals
  import opened Texts
  import opened Jobs

  const HEX_WIDTH: nat := 24

  function HexDigit(d: nat): char
    requires d < 16
  {
    if d < 10 then (d + '0' as int) as char else (d - 10 + 'a' as int) as char
  }

  function HexValue(c: char): int {
    if c <= '9' then c as int - '0' as int else c as int - 'a' as int + 10
  }

  predicate IsHex(c: char) {
    '0' <= c <= '9' || 'a' <= c <= 'f'
  }

  function Hex(n: nat): string {
    if n < 16 then [HexDigit(n)] else Hex(n / 16) + [HexDigit(n % 16)]
  }

  function Padded(s: string): string
    decreases HEX_WIDTH - |s|
  {
    if |s| >= HEX_WIDTH then s else Padded("0" + s)
  }

  /** fmt.Sprintf("%024x", n). */
  function IdText(n: nat): string {
    Padded(Hex(n))
  }

  function KeyText(key: Key): string {
    match key
    case NoKey => ""
    case ReminderKey(event, sequence) => "reminder:" + IdText(event) + ":" + FormatInt(sequence)
    case PeekKey(participation, count) => "peek:" + IdText(participation) + ":" + FormatInt(count)
    case AutoEndKey(event) => "auto_end:" + IdText(event)
    case ArchiveKey(event) => "archive:" + IdText(event)
  }

  // ----- reading back

  function HexNumber(s: string): int {
    if s == "" then 0 else 16 * HexNumber(s[..|s| - 1]) + HexValue(s[|s| - 1])
  }

  predicate AllHex(s: string) {
    forall i :: 0 <= i < |s| ==> IsHex(s[i])
  }

  lemma {:induction false} HexReads(n: nat)
    ensures AllHex(Hex(n)) && HexNumber(Hex(n)) == n
  {
    if n >= 16 {
      HexReads(n / 16);
      assert Hex(n)[..|Hex(n)| - 1] == Hex(n / 16);
    }
  }

  lemma {:induction false} LeadingZero(s: string)
    ensures HexNumber("0" + s) == HexNumber(s)
  {
    if s == "" {
      assert ("0" + s)[..0] == "" && HexNumber("") == 0;
    } else {
      LeadingZero(s[..|s| - 1]);
      assert ("0" + s)[..|"0" + s| - 1] == "0" + s[..|s| - 1];
    }
  }

  lemma {:induction false} PaddedReads(s: string)
    requires AllHex(s)
    ensures AllHex(Padded(s)) && HexNumber(Padded(s)) == HexNumber(s)
    decreases HEX_WIDTH - |s|
  {
    if |s| < HEX_WIDTH {
      LeadingZero(s);
      PaddedReads("0" + s);
    }
  }

  lemma IdReads(n: nat)
    ensures HexNumber(IdText(n)) == n && ':' !in IdText(n)
  {
    HexReads(n);
    PaddedReads(Hex(n));
  }

  /** The number an integer text stands for. */
  function IntOf(s: string): int {
    if s != "" && s[0] == '-' then -Number(s[1..]) else Number(s)
  }

  lemma IntReads(n: int)
    ensures IntOf(FormatInt(n)) == n
  {
    DigitsRead(if n < 0 then -n else n);
    if n < 0 {
      assert FormatInt(n)[1..] == Digits(-n);
    }
  }

  /** The parts of a key: its name, and the rest. */
  lemma Parts(key: Key)
    requires key != NoKey
    ensures Cut(KeyText(key), ':') == Some((NameOf(key), RestOf(key)))
  {
    CutAt(NameOf(key), ':', RestOf(key));
    assert KeyText(key) == NameOf(key) + [':'] + RestOf(key);
  }

  function NameOf(key: Key): string {
    match key
    case NoKey => ""
    case ReminderKey(_, _) => "reminder"
    case PeekKey(_, _) => "peek"
    case AutoEndKey(_) => "auto_end"
    case ArchiveKey(_) => "archive"
  }

  function RestOf(key: Key): string {
    match key
    case NoKey => ""
    case ReminderKey(event, sequence) => IdText(event) + ":" + FormatInt(sequence)
    case PeekKey(participation, count) => IdText(participation) + ":" + FormatInt(count)
    case AutoEndKey(event) => IdText(event)
    case ArchiveKey(event) => IdText(event)
  }

  lemma PairReads(id: nat, n: int)
    ensures Cut(IdText(id) + ":" + FormatInt(n), ':') == Some((IdText(id), FormatInt(n)))
  {
    IdReads(id);
    CutAt(IdText(id), ':', FormatInt(n));
  }

  lemma SamePair(id: nat, n: int, id': nat, n': int)
    requires IdText(id) + ":" + FormatInt(n) == IdText(id') + ":" + FormatInt(n')
    ensures id == id' && n == n'
  {
    PairReads(id, n);
    PairReads(id', n');
    IdReads(id);
    IdReads(id');
    IntReads(n);
    IntReads(n');
  }

  /** Two keys with the same text are the same key. */
  lemma KeyTextsDiffer(a: Key, b: Key)
    ensures KeyText(a) == KeyText(b) <==> a == b
  {
    if KeyText(a) == KeyText(b) && a != NoKey && b != NoKey {
      Parts(a);
      Parts(b);
      assert NameOf(a) == NameOf(b) && RestOf(a) == RestOf(b);
      match a {
        case ReminderKey(event, sequence) => SamePair(event, sequence, b.event, b.sequence);
        case PeekKey(participation, count) => SamePair(participation, count, b.participation, b.count);
        case AutoEndKey(event) =>
          IdReads(event);
          IdReads(b.event);
        case ArchiveKey(event) =>
          IdReads(event);
          IdReads(b.event);
      }
    }
  }
}
