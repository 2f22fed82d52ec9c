/** The callback data of a slot button: `BOOK|event|name|phone|slot`, built when the
    slots are offered and split on `|` when the button is pressed. */
module Payload {

  /** The field separator of the callback data. */
  const Separator: char := '|'

  /** The first field, which marks the callback data as a booking request. */
  const Tag: string := "BOOK"

  /** What a slot button asks the scheduling service to book. */
  datatype BookingRequest = BookingRequest(eventType: string, name: string, phone: string, slot: string)

  /** The outcome of reading callback data: not a booking button at all (no `BOOK|`
      prefix), a `BOOK|` payload whose split does not give exactly five fields (the
      five-way unpack raises), or a booking request. */
  datatype Decoding = NotBooking | Malformed | Booking(request: BookingRequest)

  // ---------- Python's str.split with a one-character separator ----------

  /** `s.split(sep)`: the pieces of `s` between occurrences of `sep`. */
  function Split(s: string, sep: char): (parts: seq<string>)
    ensures |parts| >= 1
    ensures forall i :: 0 <= i < |parts| ==> sep !in parts[i]
    decreases |s|
  {
    if s == [] then [""]
    else
      var rest := Split(s[1..], sep);
      if s[0] == sep then [""] + rest
      else [[s[0]] + rest[0]] + rest[1..]
  }

  /** `sep.join(parts)`. */
  function Join(parts: seq<string>, sep: char): string
    requires |parts| >= 1
    decreases |parts|
  {
    if |parts| == 1 then parts[0] else parts[0] + [sep] + Join(parts[1..], sep)
  }

  /** The number of occurrences of `c` in `s`. */
  function Occurrences(s: string, c: char): nat
    decreases |s|
  {
    if s == [] then 0 else (if s[0] == c then 1 else 0) + Occurrences(s[1..], c)
  }

  /** A prefix free of the separator only lengthens the first piece. */
  lemma {:induction false} SplitAppend(p: string, t: string, sep: char)
    requires sep !in p
    ensures Split(p + t, sep) == [p + Split(t, sep)[0]] + Split(t, sep)[1..]
    decreases |p|
  {
    if p == [] {
      assert p + t == t;
      var parts := Split(t, sep);
      assert p + parts[0] == parts[0];
      assert [parts[0]] + parts[1..] == parts;
    } else {
      assert (p + t)[1..] == p[1..] + t;
      SplitAppend(p[1..], t, sep);
      assert [p[0]] + (p[1..] + Split(t, sep)[0]) == p + Split(t, sep)[0];
    }
  }

  /** Splitting a joined sequence of separator-free pieces gives the pieces back. */
  lemma {:induction false} SplitJoin(parts: seq<string>, sep: char)
    requires |parts| >= 1
    requires forall i :: 0 <= i < |parts| ==> sep !in parts[i]
    ensures Split(Join(parts, sep), sep) == parts
    decreases |parts|
  {
    var p := parts[0];
    if |parts| == 1 {
      SplitAppend(p, "", sep);
      assert p + "" == p;
    } else {
      var tail := Join(parts[1..], sep);
      SplitJoin(parts[1..], sep);
      assert ([sep] + tail)[1..] == tail;
      assert Split([sep] + tail, sep) == [""] + parts[1..];
      assert Join(parts, sep) == p + ([sep] + tail);
      SplitAppend(p, [sep] + tail, sep);
      assert p + "" == p;
    }
  }

  /** Joining the pieces of a split gives the string back. */
  lemma {:induction false} JoinSplit(s: string, sep: char)
    ensures Join(Split(s, sep), sep) == s
    decreases |s|
  {
    if s != [] {
      var rest := Split(s[1..], sep);
      JoinSplit(s[1..], sep);
      if s[0] == sep {
        assert Split(s, sep) == [""] + rest;
        assert ([""] + rest)[1..] == rest;
        assert s == [sep] + s[1..];
      } else {
        var parts := Split(s, sep);
        assert parts == [[s[0]] + rest[0]] + rest[1..];
        if |rest| == 1 {
          assert s == [s[0]] + s[1..];
        } else {
          assert parts[1..] == rest[1..];
          assert Join(rest, sep) == rest[0] + [sep] + Join(rest[1..], sep);
          assert s == [s[0]] + s[1..];
        }
      }
    }
  }

  /** A split has one piece more than there are separators. */
  lemma {:induction false} SplitLength(s: string, sep: char)
    ensures |Split(s, sep)| == Occurrences(s, sep) + 1
    decreases |s|
  {
    if s != [] {
      SplitLength(s[1..], sep);
    }
  }

  lemma {:induction false} OccurrencesAppend(a: string, b: string, c: char)
    ensures Occurrences(a + b, c) == Occurrences(a, c) + Occurrences(b, c)
    decreases |a|
  {
    if a == [] {
      assert a + b == b;
    } else {
      assert (a + b)[1..] == a[1..] + b;
      OccurrencesAppend(a[1..], b, c);
    }
  }

  lemma {:induction false} OccurrencesPositive(s: string, c: char)
    requires c in s
    ensures Occurrences(s, c) >= 1
    decreases |s|
  {
    if s[0] != c {
      assert c in s[1..];
      OccurrencesPositive(s[1..], c);
    }
  }

  // ---------- The booking payload ----------

  /** No field of the request contains the separator. */
  predicate Separable(r: BookingRequest)
  {
    Separator !in r.eventType && Separator !in r.name && Separator !in r.phone && Separator !in r.slot
  }

  /** The five fields of the callback data, in order. */
  function Fields(r: BookingRequest): seq<string>
  {
    [Tag, r.eventType, r.name, r.phone, r.slot]
  }

  /** `f"BOOK|{event_type}|{name}|{phone}|{s}"`: the five fields joined by the
      separator, so every payload passes the `BOOK|` test of the callback. */
  function Encode(r: BookingRequest): (data: string)
    ensures "BOOK|" <= data
    ensures data == Join(Fields(r), Separator)
  {
    var f := Fields(r);
    var sep := [Separator];
    assert f[1..][1..][1..][1..] == [r.slot];
    assert Join([r.phone, r.slot], Separator) == r.phone + sep + r.slot;
    assert f[1..][1..][1..] == [r.phone, r.slot];
    assert Join([r.name, r.phone, r.slot], Separator) == r.name + sep + (r.phone + sep + r.slot);
    assert f[1..][1..] == [r.name, r.phone, r.slot];
    assert Join(f[1..], Separator) == r.eventType + sep + (r.name + sep + (r.phone + sep + r.slot));
    assert f[1..] == [r.eventType, r.name, r.phone, r.slot];
    assert Join(f, Separator) == Tag + sep + (r.eventType + sep + (r.name + sep + (r.phone + sep + r.slot)));
    "BOOK|" + r.eventType + "|" + r.name + "|" + r.phone + "|" + r.slot
  }

  /** `data.startswith("BOOK|")` followed by `_, event_type, name, phone, slot = data.split("|")`.
      Data without the prefix is not a booking; every payload accepted as a booking is
      the payload of the request it yields, and no field of that request contains `|`. */
  function Decode(data: string): (r: Decoding)
    ensures r == NotBooking <==> !("BOOK|" <= data)
    ensures r.Booking? ==> Encode(r.request) == data && Separable(r.request)
  {
    if !("BOOK|" <= data) then NotBooking
    else
      var parts := Split(data, Separator);
      if |parts| == 5 then
        var request := BookingRequest(parts[1], parts[2], parts[3], parts[4]);
        JoinSplit(data, Separator);
        var rest := data[5..];
        assert data == "BOOK" + ("|" + rest);
        assert ("|" + rest)[1..] == rest;
        SplitAppend("BOOK", "|" + rest, Separator);
        assert parts[0] == "BOOK";
        assert parts == Fields(request);
        assert Separator !in parts[1] && Separator !in parts[2] && Separator !in parts[3] && Separator !in parts[4];
        Booking(request)
      else Malformed
  }

  /** The round trip of the slot buttons: the callback recovers exactly the request the
      button was built from when no field contains `|`, and the unpack fails otherwise. */
  lemma DecodeEncode(r: BookingRequest)
    ensures Decode(Encode(r)) == if Separable(r) then Booking(r) else Malformed
  {
    var f := Fields(r);
    if Separable(r) {
      SplitJoin(f, Separator);
    } else {
      var data := Encode(r);
      SplitLength(data, Separator);
      var sep := "|";
      assert data == "BOOK" + sep + r.eventType + sep + r.name + sep + r.phone + sep + r.slot;
      OccurrencesAppend("BOOK" + sep + r.eventType + sep + r.name + sep + r.phone + sep, r.slot, Separator);
      OccurrencesAppend("BOOK" + sep + r.eventType + sep + r.name + sep + r.phone, sep, Separator);
      OccurrencesAppend("BOOK" + sep + r.eventType + sep + r.name + sep, r.phone, Separator);
      OccurrencesAppend("BOOK" + sep + r.eventType + sep + r.name, sep, Separator);
      OccurrencesAppend("BOOK" + sep + r.eventType + sep, r.name, Separator);
      OccurrencesAppend("BOOK" + sep + r.eventType, sep, Separator);
      OccurrencesAppend("BOOK" + sep, r.eventType, Separator);
      OccurrencesAppend("BOOK", sep, Separator);
      if Separator in r.eventType {
        OccurrencesPositive(r.eventType, Separator);
      } else if Separator in r.name {
        OccurrencesPositive(r.name, Separator);
      } else if Separator in r.phone {
        OccurrencesPositive(r.phone, Separator);
      } else {
        OccurrencesPositive(r.slot, Separator);
      }
      assert |Split(data, Separator)| >= 6;
    }
  }
}
