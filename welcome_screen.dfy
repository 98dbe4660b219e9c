/** The welcome form: a player name that must not be blank, an age chosen
    from 5 to 104 with the generation it falls in, and an optional picture.
    The current year, read from the clock in the component, is a parameter
    here. */
module WelcomeScreen {

  import opened Optional
  import Decimal

  // ---------------------------------------------------------------------
  // Name validation

  /** The characters `String.prototype.trim` strips: white space and line
      terminators. */
  predicate IsWhitespace(ch: char) {
    var c := ch as int;
    || 0x09 <= c <= 0x0D || c == 0x20 || c == 0xA0 || c == 0x1680
    || 0x2000 <= c <= 0x200A || c == 0x2028 || c == 0x2029 || c == 0x202F
    || c == 0x205F || c == 0x3000 || c == 0xFEFF
  }

  /** Drops leading white space: the result is a suffix of `s` that does
      not start with white space, and everything dropped is white space. */
  function TrimStart(s: string): (r: string)
    ensures |r| <= |s| && r == s[|s| - |r|..]
    ensures r != [] ==> !IsWhitespace(r[0])
    ensures forall i :: 0 <= i < |s| - |r| ==> IsWhitespace(s[i])
  {
    if s != [] && IsWhitespace(s[0]) then TrimStart(s[1..]) else s
  }

  /** Drops trailing white space: the result is a prefix of `s` that does
      not end with white space, and everything dropped is white space. */
  function TrimEnd(s: string): (r: string)
    ensures |r| <= |s| && r == s[..|r|]
    ensures r != [] ==> !IsWhitespace(r[|r| - 1])
    ensures forall i :: |r| <= i < |s| ==> IsWhitespace(s[i])
  {
    if s != [] && IsWhitespace(s[|s| - 1]) then TrimEnd(s[..|s| - 1]) else s
  }

  function Trim(s: string): string {
    TrimEnd(TrimStart(s))
  }

  predicate IsNameValid(name: string) {
    |Trim(name)| > 0
  }

  /** A name is valid exactly when it holds a character other than white
      space. */
  lemma NameValidIff(name: string)
    ensures IsNameValid(name) <==> exists i :: 0 <= i < |name| && !IsWhitespace(name[i])
  {
    var a := TrimStart(name);
    var b := TrimEnd(a);
    if |b| > 0 {
      var k := |name| - |a|;
      assert name[k] == a[0] == b[0];
    } else {
      // a blank tail would have been stripped from the front already
      assert a == [];
    }
  }

  // ---------------------------------------------------------------------
  // Generations

  datatype Generation = GenAlpha | GenZ | Millennial | GenX | BabyBoomer | Silent

  /** Later generations rank higher. */
  function Recency(g: Generation): nat {
    match g
    case Silent => 0
    case BabyBoomer => 1
    case GenX => 2
    case Millennial => 3
    case GenZ => 4
    case GenAlpha => 5
  }

  /** The cutoffs all four generation helpers use, on the birth year
      `year - age`. */
  function GenerationOf(year: int, age: int): Generation {
    var birthYear := year - age;
    if birthYear >= 2013 then GenAlpha
    else if birthYear >= 1997 then GenZ
    else if birthYear >= 1981 then Millennial
    else if birthYear >= 1965 then GenX
    else if birthYear >= 1946 then BabyBoomer
    else Silent
  }

  function GenerationLabel(year: int, age: int): string {
    var birthYear := year - age;
    if birthYear >= 2013 then "Gen Alpha"
    else if birthYear >= 1997 then "Gen Z"
    else if birthYear >= 1981 then "Millennial"
    else if birthYear >= 1965 then "Gen X"
    else if birthYear >= 1946 then "Baby Boomer"
    else "Silent Generation"
  }

  function GenerationColor(year: int, age: int): string {
    var birthYear := year - age;
    if birthYear >= 2013 then "#F43F5E"
    else if birthYear >= 1997 then "#8B5CF6"
    else if birthYear >= 1981 then "#3B82F6"
    else if birthYear >= 1965 then "#10B981"
    else if birthYear >= 1946 then "#F59E0B"
    else "#EF4444"
  }

  function GenerationGradient(year: int, age: int): string {
    var birthYear := year - age;
    if birthYear >= 2013 then "#F43F5E, #FB7185"
    else if birthYear >= 1997 then "#8B5CF6, #C084FC"
    else if birthYear >= 1981 then "#3B82F6, #60A5FA"
    else if birthYear >= 1965 then "#10B981, #34D399"
    else if birthYear >= 1946 then "#F59E0B, #FBBF24"
    else "#EF4444, #F87171"
  }

  /** The description's heading: the generation's name and birth years
      (the prose that follows each heading is not modelled). */
  function GenerationDescriptionHeading(year: int, age: int): string {
    var birthYear := year - age;
    if birthYear >= 2013 then "Gen Alpha (born 2013-present)"
    else if birthYear >= 1997 then "Gen Z (born 1997-2012)"
    else if birthYear >= 1981 then "Millennials (born 1981-1996)"
    else if birthYear >= 1965 then "Gen X (born 1965-1980)"
    else if birthYear >= 1946 then "Baby Boomers (born 1946-1964)"
    else "Silent Generation (born 1928-1945)"
  }

  /** The label, colour, gradient and description all follow the same
      classification: two ages get the same label exactly when they are in
      the same generation, and then they get the same colour, gradient and
      description too; the colour alone tells the generation apart. */
  lemma HelpersAgree(year: int, a1: int, a2: int)
    ensures GenerationLabel(year, a1) == GenerationLabel(year, a2) <==> GenerationOf(year, a1) == GenerationOf(year, a2)
    ensures GenerationColor(year, a1) == GenerationColor(year, a2) <==> GenerationOf(year, a1) == GenerationOf(year, a2)
    ensures GenerationOf(year, a1) == GenerationOf(year, a2) ==>
      && GenerationGradient(year, a1) == GenerationGradient(year, a2)
      && GenerationDescriptionHeading(year, a1) == GenerationDescriptionHeading(year, a2)
  {
  }

  /** An older player never falls in a later generation. */
  lemma OlderIsNotLater(year: int, a1: int, a2: int)
    requires a1 <= a2
    ensures Recency(GenerationOf(year, a2)) <= Recency(GenerationOf(year, a1))
  {
  }

  // ---------------------------------------------------------------------
  // The age drop-down

  const DefaultAge: int := 10
  const FirstAge: int := 5
  const AgeChoices: nat := 100

  /** What one entry of the drop-down is built from: the age, its
      generation label, and whether it gets the Gen Alpha marking (bold,
      with a sparkle). The shown text, "<age> years old (<generation>)",
      is not modelled as a string. */
  datatype AgeOption = AgeOption(age: int, generation: string, genAlpha: bool)

  function AgeOptions(year: int): (opts: seq<AgeOption>)
    ensures |opts| == AgeChoices
    ensures forall i :: 0 <= i < |opts| ==> opts[i].age == FirstAge + i
  {
    seq(AgeChoices, i requires 0 <= i < AgeChoices =>
      AgeOption(FirstAge + i, GenerationLabel(year, FirstAge + i), year - (FirstAge + i) >= 2013))
  }

  /** The drop-down offers exactly the ages 5 to 104, the default among
      them, and marks exactly the Gen Alpha ages. */
  lemma AgeOptionsRange(year: int, age: int)
    ensures (exists i :: 0 <= i < |AgeOptions(year)| && AgeOptions(year)[i].age == age) <==> 5 <= age <= 104
    ensures AgeOptions(year)[DefaultAge - FirstAge].age == DefaultAge
    ensures forall i :: 0 <= i < |AgeOptions(year)| ==>
      (AgeOptions(year)[i].genAlpha <==> AgeOptions(year)[i].generation == "Gen Alpha")
  {
    var opts := AgeOptions(year);
    if 5 <= age <= 104 {
      assert opts[age - FirstAge].age == age;
    }
    forall i | 0 <= i < |opts| ensures opts[i].genAlpha <==> opts[i].generation == "Gen Alpha" {
      LabelAlphaIff(year, FirstAge + i);
    }
  }

  lemma LabelAlphaIff(year: int, age: int)
    ensures GenerationLabel(year, age) == "Gen Alpha" <==> year - age >= 2013
  {
    if year - age < 2013 {
      assert |GenerationLabel(year, age)| != |"Gen Alpha"|;
    }
  }

  // ---------------------------------------------------------------------
  // The form's state

  /** What submitting hands to the game: the name as typed, the age and
      the picture when there is one. */
  datatype StartArgs = StartArgs(playerName: string, playerAge: int, playerImage: Option<string>)

  /** `playerImage || undefined`: an empty string counts as no picture. */
  function ImageOrUndefined(image: Option<string>): Option<string> {
    match image
    case Some(img) => if img == "" then None else Some(img)
    case None => None
  }

  class Form {
    var playerName: string
    var playerAge: int
    var playerImage: Option<string>

    constructor ()
      ensures playerName == "" && playerAge == DefaultAge && playerImage == None
    {
      playerName := "";
      playerAge := DefaultAge;
      playerImage := None;
    }

    /** `handleSubmit`: starts the game only with a valid name, passing the
        name untrimmed. */
    method Submit() returns (started: Option<StartArgs>)
      ensures started.Some? <==> IsNameValid(playerName)
      ensures started.Some? ==>
        && started.value.playerName == playerName
        && started.value.playerAge == playerAge
        && (started.value.playerImage.Some? <==> playerImage.Some? && playerImage.value != "")
        && (started.value.playerImage.Some? ==> started.value.playerImage == playerImage)
    {
      if IsNameValid(playerName) {
        started := Some(StartArgs(playerName, playerAge, ImageOrUndefined(playerImage)));
      } else {
        started := None;
      }
    }

    /** The name field's change handler. */
    method SetName(name: string)
      modifies this
      ensures playerName == name
      ensures playerAge == old(playerAge) && playerImage == old(playerImage)
    {
      playerName := name;
    }

    /** The age drop-down's change handler: the chosen option's value, an
        age printed in decimal, is parsed back into the age. */
    method SelectAge(choice: AgeOption)
      requires FirstAge <= choice.age < FirstAge + AgeChoices
      modifies this
      ensures playerAge == choice.age
      ensures playerName == old(playerName) && playerImage == old(playerImage)
    {
      Decimal.ParseToString(choice.age);
      var parsed := Decimal.ParseNumeral(Decimal.ToString(choice.age));
      playerAge := parsed.value;
    }

    /** The reader's load callback: a non-empty data URL becomes the
        picture. */
    method ImageRead(result: string)
      modifies this
      ensures playerImage == if result != "" then Some(result) else old(playerImage)
      ensures playerName == old(playerName) && playerAge == old(playerAge)
    {
      if result != "" {
        playerImage := Some(result);
      }
    }

    /** `removeImage`. */
    method RemoveImage()
      modifies this
      ensures playerImage == None
      ensures playerName == old(playerName) && playerAge == old(playerAge)
    {
      playerImage := None;
    }
  }
}
