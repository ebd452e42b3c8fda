/** The browser's digital cart: `readDigitalCart` and `writeDigitalCart` of components/digital-catalog.tsx. */
module DigitalCartStorage {
  import opened Prelude

  /** Offer ids are only ever compared, so a number stands for one. */
  type OfferId = nat

  datatype Entry = Id(id: OfferId) | NotAString

  /** What local storage holds under the cart key, once parsed as JSON. */
  datatype Stored = Absent | Malformed | NotAList | Items(entries: seq<Entry>)

  const READ_LIMIT: nat := 50

  function Strings(entries: seq<Entry>): seq<OfferId> {
    if entries == [] then []
    else if entries[0].Id? then [entries[0].id] + Strings(entries[1..])
    else Strings(entries[1..])
  }

  function Read(stored: Stored): seq<OfferId> {
    match stored
    case Items(entries) => Take(Unique(Strings(entries)), READ_LIMIT)
    case _ => []
  }

  function Entries(ids: seq<OfferId>): seq<Entry> {
    seq(|ids|, i requires 0 <= i < |ids| => Id(ids[i]))
  }

  function Write(ids: seq<OfferId>): Stored {
    Items(Entries(Unique(ids)))
  }

  lemma {:induction false} StringsOfEntries(ids: seq<OfferId>)
    ensures Strings(Entries(ids)) == ids
  {
    if ids != [] {
      StringsOfEntries(ids[1..]);
      assert Entries(ids)[1..] == Entries(ids[1..]);
    }
  }

  /** Reading never yields a duplicate nor more than fifty ids, whatever is stored. */
  lemma ReadIsNormal(stored: Stored)
    ensures Distinct(Read(stored)) && |Read(stored)| <= READ_LIMIT
  {
    if stored.Items? {
      UniqueKeepsFirstOccurrences(Strings(stored.entries));
    }
  }

  /** Reading what was written gives the first fifty distinct ids, in order of first occurrence. */
  lemma ReadAfterWrite(ids: seq<OfferId>)
    ensures Read(Write(ids)) == Take(Unique(ids), READ_LIMIT)
    ensures Distinct(ids) && |ids| <= READ_LIMIT ==> Read(Write(ids)) == ids
  {
    StringsOfEntries(Unique(ids));
    UniqueKeepsFirstOccurrences(ids);
    UniqueOfDistinct(Unique(ids));
    if Distinct(ids) {
      UniqueOfDistinct(ids);
    }
  }

  /** Adding an offer shows it in the cart if and only if it was there or the cart had room; the rest keeps its place. */
  lemma AddedOfferIsVisible(stored: Stored, id: OfferId)
    ensures var before, after := Read(stored), Read(Write(Read(stored) + [id]));
            && (id in after <==> id in before || |before| < READ_LIMIT)
            && before <= after
  {
    var before := Read(stored);
    ReadIsNormal(stored);
    ReadAfterWrite(before + [id]);
    assert (before + [id])[..|before|] == before;
    UniqueOfDistinct(before);
  }
}
