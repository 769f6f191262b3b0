/**
 * A stand-alone positioned command with three numeric parameters. Whatever
 * command name it stores, it encodes as a field origin: `^FO` followed by the
 * three values separated by commas, with no terminator.
 */
module CustomCommand {
  import opened Wrappers
  import opened Decimal
  import opened ZplUtils
  import opened CommonCodes

  /** What `getZplCode` produces for these coordinates; a null coordinate reads "null". */
  function CustomCommandZpl(posX: Option<int>, posY: Option<int>, posZ: Option<int>): string
  {
    ZplCommand(FIELD_ORIGIN.Code(), [])
      + IntegerToString(posX) + [Separator] + IntegerToString(posY) + [Separator] + IntegerToString(posZ)
  }

  /** Reads a custom-command fragment back into its three coordinates. */
  function ParseCustomCommand(s: string): Option<(Option<int>, Option<int>, Option<int>)>
  {
    match ParseCommand(s)
    case Some((m, ps)) =>
      if m == FIELD_ORIGIN.Code() && |ps| == 3 then
        match (ParseInteger(ps[0]), ParseInteger(ps[1]), ParseInteger(ps[2]))
        case (Some(x), Some(y), Some(z)) => Some((x, y, z))
        case _ => None
      else None
    case None => None
  }

  /** The number of occurrences of `c` in `s`. */
  function Count(s: string, c: char): nat
  {
    if s == [] then 0 else (if s[0] == c then 1 else 0) + Count(s[1..], c)
  }

  lemma {:induction false} CountAppend(a: string, b: string, c: char)
    ensures Count(a + b, c) == Count(a, c) + Count(b, c)
  {
    if a != [] {
      assert (a + b)[1..] == a[1..] + b;
      CountAppend(a[1..], b, c);
    } else {
      assert a + b == b;
    }
  }

  lemma {:induction false} CountAbsent(s: string, c: char)
    requires c !in s
    ensures Count(s, c) == 0
  {
    if s != [] {
      CountAbsent(s[1..], c);
    }
  }

  /** The fragment is the field-origin command with the three rendered coordinates as parameters. */
  lemma CustomCommandIsFieldOrigin(posX: Option<int>, posY: Option<int>, posZ: Option<int>)
    ensures CustomCommandZpl(posX, posY, posZ)
            == ZplCommand("FO", [IntegerToString(posX), IntegerToString(posY), IntegerToString(posZ)])
  {
    JoinThree(IntegerToString(posX), IntegerToString(posY), IntegerToString(posZ));
  }

  /** The three coordinates, nulls included, are read back from the fragment. */
  lemma CustomCommandRoundTrip(posX: Option<int>, posY: Option<int>, posZ: Option<int>)
    ensures ParseCustomCommand(CustomCommandZpl(posX, posY, posZ)) == Some((posX, posY, posZ))
  {
    var ps := [IntegerToString(posX), IntegerToString(posY), IntegerToString(posZ)];
    IntegerTokenShape(posX);
    IntegerTokenShape(posY);
    IntegerTokenShape(posZ);
    CustomCommandIsFieldOrigin(posX, posY, posZ);
    CommandRoundTrip("FO", ps);
    IntegerRoundTrip(posX);
    IntegerRoundTrip(posY);
    IntegerRoundTrip(posZ);
  }

  /**
   * Three comma-free tokens after a comma-free head, joined by two commas:
   * the head is a prefix, there are exactly those two commas, and no line
   * break appears when none of the parts has one.
   */
  lemma {:induction false} TwoSeparators(head: string, x: string, y: string, z: string)
    requires Separator !in head && Separator !in x && Separator !in y && Separator !in z
    requires LineBreak !in head && LineBreak !in x && LineBreak !in y && LineBreak !in z
    ensures var s := head + x + [Separator] + y + [Separator] + z;
      StartsWith(s, head) && Count(s, Separator) == 2 && LineBreak !in s
  {
    var s1 := head + x;
    var s2 := s1 + [Separator];
    var s3 := s2 + y;
    var s4 := s3 + [Separator];
    var s := s4 + z;
    CountAppend(s4, z, Separator);
    CountAppend(s3, [Separator], Separator);
    CountAppend(s2, y, Separator);
    CountAppend(s1, [Separator], Separator);
    CountAppend(head, x, Separator);
    CountAbsent(head, Separator);
    CountAbsent(x, Separator);
    CountAbsent(y, Separator);
    CountAbsent(z, Separator);
    assert Count([Separator], Separator) == 1;
    StartsWithAppend(head, x, head);
    StartsWithAppend(s1, [Separator], head);
    StartsWithAppend(s2, y, head);
    StartsWithAppend(s3, [Separator], head);
    StartsWithAppend(s4, z, head);
    assert StartsWith(head, head);
  }

  /** Exactly two commas follow the `^FO` prefix, and no line break ends the fragment. */
  lemma CustomCommandSeparators(posX: Option<int>, posY: Option<int>, posZ: Option<int>)
    ensures var s := CustomCommandZpl(posX, posY, posZ);
      StartsWith(s, "^FO") && Count(s, Separator) == 2 && LineBreak !in s
  {
    IntegerTokenShape(posX);
    IntegerTokenShape(posY);
    IntegerTokenShape(posZ);
    assert ZplCommand(FIELD_ORIGIN.Code(), []) == "^FO";
    TwoSeparators("^FO", IntegerToString(posX), IntegerToString(posY), IntegerToString(posZ));
  }

  class ZebraCustomCommand {
    var command: Option<string>
    var posX: Option<int>
    var posY: Option<int>
    var posZ: Option<int>

    /** The no-argument constructor: every field null. */
    constructor ()
      ensures command == None && posX == None && posY == None && posZ == None
    {
      command, posX, posY, posZ := None, None, None, None;
    }

    constructor With(command: Option<string>, posX: Option<int>, posY: Option<int>, posZ: Option<int>)
      ensures this.command == command && this.posX == posX && this.posY == posY && this.posZ == posZ
    {
      this.command, this.posX, this.posY, this.posZ := command, posX, posY, posZ;
    }

    method SetCommand(command: Option<string>)
      modifies this`command
      ensures this.command == command
    {
      this.command := command;
    }

    method SetPosX(posX: Option<int>)
      modifies this`posX
      ensures this.posX == posX
    {
      this.posX := posX;
    }

    method SetPosY(posY: Option<int>)
      modifies this`posY
      ensures this.posY == posY
    {
      this.posY := posY;
    }

    method SetPosZ(posZ: Option<int>)
      modifies this`posZ
      ensures this.posZ == posZ
    {
      this.posZ := posZ;
    }

    /** `getZplCode`: the field-origin fragment; the stored command name plays no part. */
    method GetZplCode() returns (zpl: string)
      ensures zpl == CustomCommandZpl(posX, posY, posZ)
      ensures ParseCustomCommand(zpl) == Some((posX, posY, posZ))
    {
      zpl := ZplCommand(FIELD_ORIGIN.Code(), []);
      zpl := zpl + IntegerToString(posX);
      zpl := zpl + ",";
      zpl := zpl + IntegerToString(posY);
      zpl := zpl + ",";
      zpl := zpl + IntegerToString(posZ);
      CustomCommandRoundTrip(posX, posY, posZ);
    }
  }
}
