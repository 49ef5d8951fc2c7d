/** The progress view (components/ProgressTracker.tsx): challenge counts for
    the status chart, and saving a journal entry. The reflection prompt comes
    from the text generator and is a parameter; the chart itself is left out. */
module Progress {
  import opened Types
  import opened Text
  import opened Storage

  /** The chart pads the Pending slice up to this many challenges. */
  const ChartPadding: nat := 5
  const DefaultPrompt: string := "Self Reflection"

  /** `challenges.filter(c => c.status === s).length`. */
  function CountStatus(cs: seq<Challenge>, s: ChallengeStatus): (n: nat)
    ensures n <= |cs|
    ensures n == 0 <==> forall i :: 0 <= i < |cs| ==> cs[i].status != s
    ensures n == |cs| <==> forall i :: 0 <= i < |cs| ==> cs[i].status == s
  {
    if cs == [] then 0
    else
      var rest := CountStatus(cs[1..], s);
      assert forall i :: 1 <= i < |cs| ==> cs[i] == cs[1..][i - 1];
      (if cs[0].status == s then 1 else 0) + rest
  }

  /** Every challenge has exactly one of the three statuses, so the counts
      add up to the list's length: Active and Completed together never exceed
      it, and Pending challenges fall in neither. */
  lemma {:induction false} CountsPartition(cs: seq<Challenge>)
    ensures CountStatus(cs, Active) + CountStatus(cs, Completed) + CountStatus(cs, Pending) == |cs|
  {
    if cs != [] {
      CountsPartition(cs[1..]);
    }
  }

  /** Counting distributes over concatenation. */
  lemma {:induction false} CountStatusConcat(a: seq<Challenge>, b: seq<Challenge>, s: ChallengeStatus)
    ensures CountStatus(a + b, s) == CountStatus(a, s) + CountStatus(b, s)
  {
    if a == [] {
      assert a + b == b;
    } else {
      assert (a + b)[1..] == a[1..] + b;
      CountStatusConcat(a[1..], b, s);
    }
  }

  datatype PieSlice = PieSlice(name: string, value: nat)

  /** The three slices of the status chart. */
  function PieData(cs: seq<Challenge>): (r: seq<PieSlice>)
    ensures |r| == 3
    ensures r[0] == PieSlice("Active", CountStatus(cs, Active))
    ensures r[1] == PieSlice("Completed", CountStatus(cs, Completed))
    ensures r[2].name == "Pending"
    ensures r[0].value + r[1].value <= ChartPadding ==> r[0].value + r[1].value + r[2].value == ChartPadding
    ensures r[0].value + r[1].value >= ChartPadding ==> r[2].value == 0
  {
    var active := CountStatus(cs, Active);
    var completed := CountStatus(cs, Completed);
    var pending := if ChartPadding - (active + completed) > 0 then ChartPadding - (active + completed) else 0;
    [PieSlice("Active", active), PieSlice("Completed", completed), PieSlice("Pending", pending)]
  }

  /** The slices sum to the padding when few challenges are counted, and to
      the counted challenges otherwise; they never exceed `max(5, |cs|)`. */
  lemma PieTotal(cs: seq<Challenge>)
    ensures var r := PieData(cs);
      var counted := CountStatus(cs, Active) + CountStatus(cs, Completed);
      && r[0].value + r[1].value + r[2].value == (if counted <= ChartPadding then ChartPadding else counted)
      && r[0].value + r[1].value + r[2].value <= (if |cs| <= ChartPadding then ChartPadding else |cs|)
  {
    CountsPartition(cs);
  }

  /** `reflectionPrompt || "Self Reflection"`. */
  function PromptOrDefault(prompt: string): (r: string)
    ensures r != ""
    ensures prompt != "" ==> r == prompt
    ensures prompt == "" ==> r == DefaultPrompt
  {
    if prompt != "" then prompt else DefaultPrompt
  }

  /** The entry `handleSaveEntry` builds at time `now`. */
  function NewEntry(prompt: string, content: string, now: nat): (e: JournalEntry)
    ensures e.id == DecimalString(now) && e.date == now
    ensures e.prompt == PromptOrDefault(prompt) && e.prompt != ""
    ensures e.content == content
  {
    JournalEntry(DecimalString(now), now, PromptOrDefault(prompt), content)
  }

  /** The component's state: the loaded lists and the two text fields. */
  class ProgressTracker {
    const storage: StorageService
    var challenges: seq<Challenge>
    var journalEntries: seq<JournalEntry>
    var reflectionPrompt: string
    var journalEntry: string

    constructor (storage: StorageService)
      ensures this.storage == storage
      ensures challenges == [] && journalEntries == [] && reflectionPrompt == "" && journalEntry == ""
    {
      this.storage := storage;
      challenges := [];
      journalEntries := [];
      reflectionPrompt := "";
      journalEntry := "";
    }

    method LoadData()
      requires storage.Valid()
      modifies this
      ensures challenges == storage.Challenges() && journalEntries == storage.JournalEntries()
      ensures reflectionPrompt == old(reflectionPrompt) && journalEntry == old(journalEntry)
    {
      challenges := storage.GetChallenges();
      journalEntries := storage.GetJournalEntries();
    }

    /** `prompt` is what the text generator returned (or its fallback). */
    method HandleGetPrompt(prompt: string)
      modifies this
      ensures reflectionPrompt == prompt
      ensures challenges == old(challenges) && journalEntries == old(journalEntries) && journalEntry == old(journalEntry)
    {
      reflectionPrompt := prompt;
    }

    method HandleSaveEntry(now: nat)
      requires storage.Valid()
      modifies this, storage
      ensures storage.Valid() && storage.currentUserId == old(storage.currentUserId)
      ensures challenges == old(challenges)
      ensures Trim(old(journalEntry)) == "" ==>
        && storage.store == old(storage.store)
        && journalEntries == old(journalEntries)
        && journalEntry == old(journalEntry) && reflectionPrompt == old(reflectionPrompt)
      ensures Trim(old(journalEntry)) != "" ==>
        var e := NewEntry(old(reflectionPrompt), old(journalEntry), now);
        && journalEntries == [e] + old(journalEntries)
        && (!storage.SignedIn() ==> storage.store == old(storage.store))
        && (storage.SignedIn() ==>
              storage.store == old(storage.store)[JournalKey(storage.currentUserId) :=
                JournalSlot([e] + old(storage.JournalEntries()))])
        && journalEntry == "" && reflectionPrompt == ""
    {
      if Trim(journalEntry) == "" {
        return;
      }
      var newEntry := NewEntry(reflectionPrompt, journalEntry, now);
      storage.SaveJournalEntry(newEntry);
      journalEntries := [newEntry] + journalEntries;
      journalEntry := "";
      reflectionPrompt := "";
    }
  }
}
