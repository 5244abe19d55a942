/**
 Custom-emoji entities of a folder title: their offsets count UTF-16 code units,
 and they may only begin and end between whole characters.
 */
module FilterEntities {
  import opened Common

  /** A Unicode scalar value, as ranging over a string yields them. */
  type Rune = r: int | 0 <= r < 0xD800 || 0xE000 <= r <= 0x10FFFF witness 0

  datatype Entity =
    | CustomEmoji(offset: int, length: int, documentId: int)
    | OtherEntity

  datatype StoredEntity = StoredEntity(offset: int, length: int, documentId: int)

  datatype Refusal = EntityBoundsInvalid

  // ----- UTF-16, by section 2.1 of RFC 2781 -----

  function Units(r: Rune): (u: seq<int>)
    ensures |u| == RuneLen(r)
  {
    if r < 0x10000 then [r]
    else [0xD800 + (r - 0x10000) / 0x400, 0xDC00 + (r - 0x10000) % 0x400]
  }

  function RuneLen(r: Rune): nat {
    if r < 0x10000 then 1 else 2
  }

  function Encode(text: seq<Rune>): seq<int> {
    if text == [] then [] else Encode(text[..|text| - 1]) + Units(text[|text| - 1])
  }

  predicate Trailing(unit: int) {
    0xDC00 <= unit <= 0xDFFF
  }

  /** A position is a boundary when some whole number of characters ends there. */
  ghost predicate Boundary(text: seq<Rune>, p: int) {
    exists k :: 0 <= k <= |text| && p == |Encode(text[..k])|
  }

  // ----- the check -----

  /** An entity the title admits: it covers one or more whole characters. */
  ghost predicate Admitted(text: seq<Rune>, e: Entity) {
    && e.CustomEmoji? && e.documentId > 0
    && exists j, k :: 0 <= j < k <= |text| && e.offset == |Encode(text[..j])| &&
                      e.offset + e.length == |Encode(text[..k])|
  }

  function Stored(e: Entity): StoredEntity
    requires e.CustomEmoji?
  {
    StoredEntity(e.offset, e.length, e.documentId)
  }

  /** Collect the boundaries of a title. */
  method Boundaries(text: seq<Rune>) returns (found: set<int>, units: nat)
    ensures units == |Encode(text)|
    ensures forall p :: p in found <==> Boundary(text, p)
  {
    found, units := {0}, 0;
    assert |Encode(text[..0])| == 0;
    for i := 0 to |text|
      invariant units == |Encode(text[..i])|
      invariant forall p :: p in found <==> exists k :: 0 <= k <= i && p == |Encode(text[..k])|
    {
      assert text[..i + 1][..i] == text[..i];
      units := units + RuneLen(text[i]);
      found := found + {units};
    }
    assert text[..|text|] == text;
  }

  lemma {:induction false} EncodeGrows(text: seq<Rune>, j: nat, k: nat)
    requires j <= k <= |text|
    ensures |Encode(text[..k])| >= |Encode(text[..j])| + (k - j)
    decreases k - j
  {
    if j < k {
      EncodeGrows(text, j, k - 1);
      assert text[..k][..k - 1] == text[..k - 1];
    }
  }

  /** The bounds the code tests are those of an admitted entity. */
  lemma AdmittedIff(text: seq<Rune>, e: Entity)
    requires e.CustomEmoji?
    ensures Admitted(text, e) <==>
            && e.offset >= 0 && 0 < e.length <= |Encode(text)| && e.offset <= |Encode(text)| - e.length
            && e.documentId > 0 && Boundary(text, e.offset) && Boundary(text, e.offset + e.length)
  {
    assert text[..|text|] == text;
    if Admitted(text, e) {
      var j, k :| 0 <= j < k <= |text| && e.offset == |Encode(text[..j])| && e.offset + e.length == |Encode(text[..k])|;
      EncodeGrows(text, j, k);
      EncodeGrows(text, k, |text|);
    }
    if e.length > 0 && e.documentId > 0 && Boundary(text, e.offset) && Boundary(text, e.offset + e.length) {
      var j :| 0 <= j <= |text| && e.offset == |Encode(text[..j])|;
      var k :| 0 <= k <= |text| && e.offset + e.length == |Encode(text[..k])|;
      if k <= j {
        EncodeGrows(text, k, j);
      }
    }
  }

  /** Accept a title's entities exactly when every one of them is admitted. */
  method ValidateEntities(text: seq<Rune>, raw: seq<Entity>) returns (r: Result<seq<StoredEntity>, Refusal>)
    ensures r.Success? <==> forall i :: 0 <= i < |raw| ==> Admitted(text, raw[i])
    ensures r.Success? ==> |r.value| == |raw|
    ensures r.Success? ==> forall i :: 0 <= i < |raw| ==> raw[i].CustomEmoji? && r.value[i] == Stored(raw[i])
  {
    var boundaries, units := Boundaries(text);
    var entities := [];
    for i := 0 to |raw|
      invariant |entities| == i && forall k :: 0 <= k < i ==> Admitted(text, raw[k]) && entities[k] == Stored(raw[k])
    {
      var e := raw[i];
      if !e.CustomEmoji? {
        return Failure(EntityBoundsInvalid);
      }
      AdmittedIff(text, e);
      if e.offset < 0 || e.length <= 0 || e.length > units || e.offset > units - e.length || e.documentId <= 0 {
        return Failure(EntityBoundsInvalid);
      }
      if e.offset !in boundaries || e.offset + e.length !in boundaries {
        return Failure(EntityBoundsInvalid);
      }
      entities := entities + [Stored(e)];
    }
    return Success(entities);
  }

  // ----- boundaries seen in the encoded text -----

  lemma {:induction false} EncodePrefix(text: seq<Rune>, k: nat)
    requires k <= |text|
    ensures Encode(text[..k]) <= Encode(text)
    decreases |text| - k
  {
    if k == |text| {
      assert text[..k] == text;
    } else {
      EncodePrefix(text, k + 1);
      assert text[..k + 1][..k] == text[..k];
    }
  }

  /** The same boundaries, told from the code units alone: a position splits a character
      exactly when a trailing surrogate follows it. */
  lemma {:induction false} BoundaryIff(text: seq<Rune>, p: int)
    requires 0 <= p <= |Encode(text)|
    ensures Boundary(text, p) <==> p == |Encode(text)| || !Trailing(Encode(text)[p])
  {
    if text == [] {
      assert p == |Encode(text[..0])|;
    } else {
      var n := |text| - 1;
      var before := text[..n];
      assert text[..|text|] == text;
      if p <= |Encode(before)| {
        BoundaryIff(before, p);
        BoundaryBelow(text, p);
        if p == |Encode(before)| {
          assert Encode(text)[p] == Units(text[n])[0];
        }
      } else {
        forall k | 0 <= k <= n ensures |Encode(text[..k])| < p {
          EncodePrefix(before, k);
          assert before[..k] == text[..k];
        }
        if p < |Encode(text)| {
          assert Encode(text)[p] == Units(text[n])[1];
        }
      }
    }
  }

  /** Up to the last character, its boundaries are those of the text before it. */
  lemma BoundaryBelow(text: seq<Rune>, p: int)
    requires text != [] && p <= |Encode(text[..|text| - 1])|
    ensures Boundary(text, p) <==> Boundary(text[..|text| - 1], p)
  {
    var before := text[..|text| - 1];
    assert text[..|text|] == text;
    forall k | 0 <= k <= |before| ensures before[..k] == text[..k] {
    }
  }
}
