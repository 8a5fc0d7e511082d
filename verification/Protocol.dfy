/** The wire vocabulary shared by the server and the clients: strokes and their
    style, batches, tombstones, paper and the page-channel messages. */
module Protocol {

  datatype Option<+T> = None | Some(value: T)

  // ---- Ink ----------------------------------------------------------------

  const SOLID_ROUND_TOOL := "solid_round"
  const SOLID_ROUND_PRESSURE_STYLE_VERSION := 2
  const MIN_PEN_WIDTH := 1.0
  const MAX_PEN_WIDTH := 32.0
  const MIN_PRESSURE_WIDTH := 1.5

  datatype StrokeStyle = StrokeStyle(
    toolKind: string, styleVersion: nat, color: string, width: real, capStyle: string, joinStyle: string)
  {
    /** Nib diameter in world units: linear from an absolute floor up to the
        preset width; a point without pressure is at full width. */
    function RenderedWidth(pressure: Option<real>): real {
      var p := ClampUnit(if pressure.Some? then pressure.value else 1.0);
      var floor := MinReal(MIN_PRESSURE_WIDTH, width);
      floor + (width - floor) * p
    }

    predicate Valid() {
      && toolKind == SOLID_ROUND_TOOL
      && styleVersion == SOLID_ROUND_PRESSURE_STYLE_VERSION
      && capStyle == "round" && joinStyle == "round"
      && |color| == 7 && color[0] == '#'
      && (forall i :: 1 <= i < 7 ==> '0' <= color[i] <= '9' || 'A' <= color[i] <= 'F')
      && MIN_PEN_WIDTH <= width <= MAX_PEN_WIDTH
      && (width * 2.0).Floor as real == width * 2.0
    }
  }

  datatype StrokePoint = StrokePoint(x: real, y: real, t: int, pressure: Option<real>)

  datatype Stroke = Stroke(id: string, style: StrokeStyle, points: seq<StrokePoint>) {
    predicate Valid() {
      && style.Valid()
      && forall i :: 0 <= i < |points| && points[i].pressure.Some? ==> 0.0 <= points[i].pressure.value <= 1.0
    }
  }

  function MinReal(a: real, b: real): real { if a <= b then a else b }

  function MaxReal(a: real, b: real): real { if a >= b then a else b }

  function ClampUnit(p: real): real { MinReal(MaxReal(p, 0.0), 1.0) }

  function Min(a: nat, b: nat): nat { if a <= b then a else b }

  function Max(a: nat, b: nat): nat { if a >= b then a else b }

  // ---- Batches ------------------------------------------------------------

  datatype StrokeBatch = StrokeBatch(seqNo: nat, clientBatchId: string, strokes: seq<Stroke>)

  datatype TombstoneBatch = TombstoneBatch(revision: nat, clientMutationId: string, strokeIds: seq<string>)

  /** The strokes whose id is not in `gone`, in order (`Vec::retain`). */
  function Surviving(strokes: seq<Stroke>, gone: set<string>): seq<Stroke> {
    if strokes == [] then []
    else if strokes[0].id in gone then Surviving(strokes[1..], gone)
    else [strokes[0]] + Surviving(strokes[1..], gone)
  }

  function ToSet(ids: seq<string>): set<string> { set id | id in ids }

  /** Every stroke id the batches erase. */
  function TombstonedIds(tombstones: seq<TombstoneBatch>): set<string> {
    if tombstones == [] then {} else ToSet(tombstones[0].strokeIds) + TombstonedIds(tombstones[1..])
  }

  lemma {:induction false} TombstonedIdsConcat(a: seq<TombstoneBatch>, b: seq<TombstoneBatch>)
    ensures TombstonedIds(a + b) == TombstonedIds(a) + TombstonedIds(b)
  {
    if a == [] {
      assert a + b == b;
    } else {
      assert (a + b)[1..] == a[1..] + b;
      TombstonedIdsConcat(a[1..], b);
    }
  }

  /** Membership pins `Surviving` as a set; `SurvivingConcat` pins the order. */
  lemma {:induction false} SurvivingMembers(strokes: seq<Stroke>, gone: set<string>)
    ensures forall s :: s in Surviving(strokes, gone) <==> s in strokes && s.id !in gone
    ensures |Surviving(strokes, gone)| <= |strokes|
  {
    if strokes != [] {
      SurvivingMembers(strokes[1..], gone);
      assert strokes == [strokes[0]] + strokes[1..];
    }
  }

  lemma {:induction false} SurvivingConcat(a: seq<Stroke>, b: seq<Stroke>, gone: set<string>)
    ensures Surviving(a + b, gone) == Surviving(a, gone) + Surviving(b, gone)
  {
    if a == [] {
      assert a + b == b;
    } else {
      assert (a + b)[1..] == a[1..] + b;
      SurvivingConcat(a[1..], b, gone);
    }
  }

  lemma {:induction false} SurvivingTwice(strokes: seq<Stroke>, first: set<string>, second: set<string>)
    ensures Surviving(Surviving(strokes, first), second) == Surviving(strokes, first + second)
  {
    if strokes != [] {
      SurvivingTwice(strokes[1..], first, second);
      if strokes[0].id !in first {
        var rest := Surviving(strokes[1..], first);
        assert ([strokes[0]] + rest)[1..] == rest;
      }
    }
  }

  /** Two id sets that agree on the strokes at hand filter them alike. */
  lemma {:induction false} SurvivingAgree(strokes: seq<Stroke>, a: set<string>, b: set<string>)
    requires forall s :: s in strokes ==> (s.id in a <==> s.id in b)
    ensures Surviving(strokes, a) == Surviving(strokes, b)
  {
    if strokes != [] {
      assert strokes[0] in strokes;
      SurvivingAgree(strokes[1..], a, b);
    }
  }

  lemma SurvivingAll(strokes: seq<Stroke>, gone: set<string>)
    requires forall s :: s in strokes ==> s.id !in gone
    ensures Surviving(strokes, gone) == strokes
  {
    if strokes != [] {
      assert strokes[0] in strokes;
      SurvivingAll(strokes[1..], gone);
    }
  }

  // ---- Paper --------------------------------------------------------------

  datatype Paper =
    | BlankPaper
    | RuledMarginNarrow | RuledMarginWide
    | RuledNarrow | RuledWide
    | SquaredSmall | SquaredLarge

  // ---- Page channel -------------------------------------------------------

  datatype PageClientMessage =
    | Subscribe(fromSeq: nat)
    | AcquireLease | RenewLease | ReleaseLease
    | CommitBatch(clientBatchId: string, strokes: seq<Stroke>)
    | CommitTombstones(clientMutationId: string, strokeIds: seq<string>)
    | SetPaper(clientMutationId: string, paper: Paper)

  datatype PageServerMessage =
    | Welcome(sessionId: string, lastSeq: nat, leaseHolder: Option<string>, paper: Paper)
    | LiveBatch(batch: StrokeBatch)
    | PageReplay(lastSeq: nat, batches: seq<StrokeBatch>, tombstones: seq<TombstoneBatch>)
    | LiveTombstones(erased: TombstoneBatch)
    | Synced(lastSeq: nat)
    | LeaseGranted
    | LeaseDenied(heldBy: string)
    | PaperChanged(paper: Paper, revision: nat)
    | LeaseChanged(holder: Option<string>)
    | ErrorMessage(code: string, message: string)
}
