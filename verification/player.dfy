/**
  The player inventory extractor `player_inv`: a player save is read only
  when it carries the `bukkit` marker with a `lastPlayed` field.
 */
module Player {
  import opened Wrappers
  import opened Tags
  import opened Records
  import opened WorldTotals
  import opened Extractor

  /** The save carries `bukkit.lastPlayed`. */
  predicate Accepted(file: map<string, Tag>) {
    "bukkit" in file && file["bukkit"].TCompound? && "lastPlayed" in file["bukkit"].fields
  }

  /**
    `player_inv`: no inventory and untouched totals for a save without the
    marker; otherwise an inventory labelled with the caller's `uuid`, holding
    the stacks of `Inventory` (none when it is absent), at `Pos` or at the
    origin when `Pos` is absent, and without equipment.
   */
  function PlayerInv(uuid: string, file: map<string, Tag>, totals: Totals): (r: WithTotals<Option<Inventory>>)
    ensures !Accepted(file) <==> r == WithTotals(Success(None), totals)
    ensures r.result.Success? && r.result.value.Some? ==>
      var inv := r.result.value.value;
      && inv.fullName == uuid
      && inv.saddle.None? && inv.armor.None?
      && ("Pos" !in file ==> inv.pos == Origin)
      && ("Pos" in file ==> ReadPosition(file["Pos"]) == Success(inv.pos))
      && ItemsOrEmpty(file, "Inventory", totals) == WithTotals(Success(inv.items), r.totals)
    ensures Accepted(file) ==>
      var ex := ItemsOrEmpty(file, "Inventory", totals);
      && r.totals == ex.totals
      && (ex.result.Failure? ==> r.result == Failure(ex.result.error))
      && (ex.result.Success? && "Pos" in file && ReadPosition(file["Pos"]).Failure? ==>
            r.result == Failure(ReadPosition(file["Pos"]).error))
      && (ex.result.Success? && ("Pos" !in file || ReadPosition(file["Pos"]).Success?) ==>
            r.result.Success? && r.result.value.Some?)
    ensures Accepted(file) && "Inventory" !in file && "Pos" !in file ==>
      r == WithTotals(Success(Some(Inventory(uuid, Origin, [], None, None))), totals)
  {
    if !Accepted(file) then WithTotals(Success(None), totals)
    else
      var ex := ItemsOrEmpty(file, "Inventory", totals);
      if ex.result.Failure? then WithTotals(Failure(ex.result.error), ex.totals)
      else
        var pos := if "Pos" in file then ReadPosition(file["Pos"]) else Success(Origin);
        if pos.Failure? then WithTotals(Failure(pos.error), ex.totals)
        else WithTotals(Success(Some(Inventory(uuid, pos.value, ex.result.value, None, None))), ex.totals)
  }
}
