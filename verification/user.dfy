/**
 * The result tree of a history build: a character, the corporations it was a
 * member of, and the alliances each corporation belonged to. The three Java
 * classes are mutable records with setters and a `toString` serialiser; each is
 * a class here, with a value (`…Value`) that its `Model()` reads off and that
 * the serialisers are specified on.
 */
module User {
  import opened Wrappers
  import opened Strings

  /** The separator the serialisers put between list elements. */
  const ListSeparator: string := ", "

  /**
   * How both list-holding records end: the text up to and including the opening
   * "[", the elements' texts separated by ", ", then "]" and "}".
   */
  function ListText(head: string, parts: seq<string>): string {
    head + Join(parts, ListSeparator) + "]" + "}"
  }

  /** An empty list is written as "[]": the head is followed directly by "]}". */
  lemma ListTextOfEmpty(head: string)
    ensures ListText(head, []) == head + "]" + "}"
  {
    assert head + Join([], ListSeparator) == head;
  }

  /**
   * A non-empty list closes right after its last element's text, with no
   * separator in between.
   */
  lemma {:induction false} ListTextHasNoTrailingSeparator(head: string, parts: seq<string>)
    requires parts != []
    ensures var s := ListText(head, parts); var last := parts[|parts| - 1];
            |s| >= |last| + 2 && s[|s| - 2 - |last|..] == last + "]}"
  {
    var body := Join(parts, ListSeparator);
    var last := parts[|parts| - 1];
    if |parts| > 1 {
      assert body == Join(parts[..|parts| - 1], ListSeparator) + ListSeparator + last;
    }
    assert body[|body| - |last|..] == last;
  }

  /** A non-empty list's text is its head, the joined elements and "]}", and the loop builds it. */
  lemma ListTextFromLoop(head: string, parts: seq<string>)
    requires parts != []
    ensures var t := Terminated(head, parts, ListSeparator);
            |t| >= 2 && t[..|t| - 2] + "]" + "}" == ListText(head, parts)
  {
    TerminatedIsJoinThenSeparator(head, parts, ListSeparator);
    var t := Terminated(head, parts, ListSeparator);
    assert t[..|t| - 2] == head + Join(parts, ListSeparator);
  }

  /**
   * The `StringBuilder` idiom both list-holding `toString`s use: after `head`,
   * append each part followed by ", ", cut the last ", " off again when there
   * was a part, then append "]" and "}".
   */
  method AppendList(head: string, parts: seq<string>) returns (s: string)
    ensures s == ListText(head, parts)
  {
    s := head;
    for i := 0 to |parts|
      invariant s == Terminated(head, parts[..i], ListSeparator)
    {
      TerminatedStep(head, parts, i, ListSeparator);
      s := s + parts[i] + ListSeparator;
    }
    assert parts[..|parts|] == parts;
    if parts != [] {
      ListTextFromLoop(head, parts);
      s := s[..|s| - 2];
    } else {
      ListTextOfEmpty(head);
    }
    s := s + "]";
    s := s + "}";
  }

  /** An alliance membership period, as a value. */
  datatype AllianceValue = AllianceValue(id: int, name: string, startDate: string, endDate: string, isSpecial: bool) {

    /** `Alliance.toString`: "Alliance{id=…, name='…', isSpecial='…', startDate='…', endDate='…'}". */
    function Text(): string {
      "Alliance{" + "id=" + LongToString(id)
      + ", name='" + name + "'"
      + ", isSpecial='" + BoolToString(isSpecial) + "'"
      + ", startDate='" + startDate + "'"
      + ", endDate='" + endDate + "'"
      + "}"
    }
  }

  /** The serialised form of each alliance, in order. */
  function AllianceTexts(alliances: seq<AllianceValue>): seq<string>
  {
    seq(|alliances|, i requires 0 <= i < |alliances| => alliances[i].Text())
  }

  /** A corporation membership period and the corporation's alliance periods, as a value. */
  datatype CorporationValue = CorporationValue(id: int, name: string, playerStartDate: string, playerEndDate: string,
                                               alliances: seq<AllianceValue>, isSpecial: bool) {

    /** Everything `toString` writes before the first alliance, up to and including ", alliances=[". */
    function Head(): string {
      "Corporation{" + "id=" + LongToString(id)
      + ", name='" + name + "'"
      + ", isSpecial='" + BoolToString(isSpecial) + "'"
      + ", playerStartDate='" + playerStartDate + "'"
      + ", playerEndDate='" + playerEndDate + "'"
      + ", alliances=["
    }

    /** `Corporation.toString`: the alliances' texts, separated by ", ", inside "alliances=[…]". */
    function Text(): string {
      ListText(Head(), AllianceTexts(alliances))
    }
  }

  /** The serialised form of each corporation, in order. */
  function CorporationTexts(corporations: seq<CorporationValue>): seq<string>
  {
    seq(|corporations|, i requires 0 <= i < |corporations| => corporations[i].Text())
  }

  /** A character and its corporation periods, as a value. */
  datatype CharacterValue = CharacterValue(id: int, name: string, corporations: seq<CorporationValue>) {

    /** Everything `toString` writes before the first corporation, up to and including ", corporations=[". */
    function Head(): string {
      "Character{" + "id=" + LongToString(id)
      + ", name='" + name + "'"
      + ", corporations=["
    }

    /** `Character.toString`: the corporations' texts, separated by ", ", inside "corporations=[…]". */
    function Text(): string {
      ListText(Head(), CorporationTexts(corporations))
    }
  }

  /** The length of the text before an alliance's id. */
  const AllianceIdOffset: nat := |"Alliance{id="|

  /** An alliance's id reads back from its text: the digits after "Alliance{id=" parse to it. */
  lemma AllianceTextIdRoundTrip(a: AllianceValue)
    requires IsLong(a.id)
    ensures |a.Text()| >= AllianceIdOffset + |LongToString(a.id)|
    ensures ParseLong(a.Text()[AllianceIdOffset..AllianceIdOffset + |LongToString(a.id)|]) == Some(a.id)
  {
    var s := a.Text();
    var digits := LongToString(a.id);
    assert s[AllianceIdOffset..AllianceIdOffset + |digits|] == digits;
    ParseLongOfLongToString(a.id);
  }

  /** The values the alliance objects currently hold, in order. */
  function AllianceModels(alliances: seq<Alliance>): (r: seq<AllianceValue>)
    reads alliances
    ensures |r| == |alliances| && forall i :: 0 <= i < |r| ==> r[i] == alliances[i].Model()
  {
    seq(|alliances|, i reads alliances requires 0 <= i < |alliances| => alliances[i].Model())
  }

  /** The values the corporation objects (and their alliance objects) currently hold, in order. */
  function CorporationModels(corporations: seq<Corporation>): (r: seq<CorporationValue>)
    reads set c, o | c in corporations && o in c.Repr() :: o
    ensures |r| == |corporations| && forall i :: 0 <= i < |r| ==> r[i] == corporations[i].Model()
  {
    if corporations == [] then []
    else CorporationModels(corporations[..|corporations| - 1]) + [corporations[|corporations| - 1].Model()]
  }

  /** `com.smell.application.user.Alliance`. */
  class Alliance {
    var id: int
    var name: string
    var startDate: string
    var endDate: string
    var isSpecial: bool

    /** The value this object holds. */
    function Model(): AllianceValue
      reads this
    {
      AllianceValue(id, name, startDate, endDate, isSpecial)
    }

    /** Stores the four given fields; the flag starts false. */
    constructor (id: int, name: string, startDate: string, endDate: string)
      ensures Model() == AllianceValue(id, name, startDate, endDate, false)
    {
      this.id := id;
      this.name := name;
      this.startDate := startDate;
      this.endDate := endDate;
      this.isSpecial := false;
    }

    method SetSpecial(special: bool)
      modifies this
      ensures Model() == old(Model()).(isSpecial := special)
    {
      isSpecial := special;
    }

    method SetId(id: int)
      modifies this
      ensures Model() == old(Model()).(id := id)
    {
      this.id := id;
    }

    method SetName(name: string)
      modifies this
      ensures Model() == old(Model()).(name := name)
    {
      this.name := name;
    }

    method SetStartDate(startDate: string)
      modifies this
      ensures Model() == old(Model()).(startDate := startDate)
    {
      this.startDate := startDate;
    }

    method SetEndDate(endDate: string)
      modifies this
      ensures Model() == old(Model()).(endDate := endDate)
    {
      this.endDate := endDate;
    }
  }

  /** `com.smell.application.user.Corporation`; `alliances` holds the alliance objects themselves. */
  class Corporation {
    var id: int
    var name: string
    var playerStartDate: string
    var playerEndDate: string
    var alliances: seq<Alliance>
    var isSpecial: bool

    /** This object and its alliance objects. */
    function Repr(): set<object>
      reads this
    {
      {this} + set a: object | a in alliances
    }

    /** The value this object and its alliance objects hold. */
    function Model(): CorporationValue
      reads Repr()
    {
      CorporationValue(id, name, playerStartDate, playerEndDate, AllianceModels(alliances), isSpecial)
    }

    /** Stores the five given fields; the flag starts false. */
    constructor (id: int, name: string, playerStartDate: string, playerEndDate: string, alliances: seq<Alliance>)
      ensures this.alliances == alliances
      ensures Model() == CorporationValue(id, name, playerStartDate, playerEndDate, AllianceModels(alliances), false)
    {
      this.id := id;
      this.name := name;
      this.playerStartDate := playerStartDate;
      this.playerEndDate := playerEndDate;
      this.alliances := alliances;
      this.isSpecial := false;
    }

    /** `toString`: the fields, then the alliances' own texts as a list. */
    method ToString() returns (s: string)
      ensures s == Model().Text()
    {
      var value := Model();
      var text := AppendList(value.Head(), AllianceTexts(value.alliances));
      assert Model() == value;
      s := text;
    }

    method SetSpecial(special: bool)
      modifies this
      ensures alliances == old(alliances)
      ensures Model() == old(Model()).(isSpecial := special)
    {
      isSpecial := special;
    }

    method SetId(id: int)
      modifies this
      ensures alliances == old(alliances)
      ensures Model() == old(Model()).(id := id)
    {
      this.id := id;
    }

    method SetName(name: string)
      modifies this
      ensures alliances == old(alliances)
      ensures Model() == old(Model()).(name := name)
    {
      this.name := name;
    }

    method SetPlayerStartDate(playerStartDate: string)
      modifies this
      ensures alliances == old(alliances)
      ensures Model() == old(Model()).(playerStartDate := playerStartDate)
    {
      this.playerStartDate := playerStartDate;
    }

    method SetPlayerEndDate(playerEndDate: string)
      modifies this
      ensures alliances == old(alliances)
      ensures Model() == old(Model()).(playerEndDate := playerEndDate)
    {
      this.playerEndDate := playerEndDate;
    }

    method SetAlliances(alliances: seq<Alliance>)
      modifies this
      ensures this.alliances == alliances
      ensures Model() == old(Model()).(alliances := AllianceModels(alliances))
    {
      this.alliances := alliances;
    }
  }

  /** `com.smell.application.user.Character`; `corporations` holds the corporation objects themselves. */
  class Character {
    var id: int
    var name: string
    var corporations: seq<Corporation>

    /** The value this object, its corporation objects and their alliance objects hold. */
    function Model(): CharacterValue
      reads this, set c, o | c in corporations && o in c.Repr() :: o
    {
      CharacterValue(id, name, CorporationModels(corporations))
    }

    /** Stores the three given fields. */
    constructor (id: int, name: string, corporations: seq<Corporation>)
      ensures this.corporations == corporations
      ensures Model() == CharacterValue(id, name, old(CorporationModels(corporations)))
    {
      this.id := id;
      this.name := name;
      this.corporations := corporations;
    }

    /** `toString`: the fields, then the corporations' own texts as a list. */
    method ToString() returns (s: string)
      ensures s == Model().Text()
    {
      var value := Model();
      var text := AppendList(value.Head(), CorporationTexts(value.corporations));
      assert Model() == value;
      s := text;
    }

    method SetId(id: int)
      modifies this
      ensures corporations == old(corporations)
      ensures Model() == old(Model()).(id := id)
    {
      this.id := id;
    }

    method SetName(name: string)
      modifies this
      ensures corporations == old(corporations)
      ensures Model() == old(Model()).(name := name)
    {
      this.name := name;
    }

    method SetCorporations(corporations: seq<Corporation>)
      modifies this
      ensures this.corporations == corporations
      ensures Model() == old(Model()).(corporations := CorporationModels(corporations))
    {
      this.corporations := corporations;
    }
  }
}
