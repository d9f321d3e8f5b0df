/** The game's own components: the ownership markers and the card record. */
module Resources {
  import opened Engine

  /** The two ownership markers.  Every card the game spawns carries
      `PlayerOwned`; `EnemyOwned` is declared but never attached. */
  datatype Owner = PlayerOwned | EnemyOwned

  /** One card entity: its transform, its ownership marker and, for a card
      spawned with the pickable bundle, its hover and selection components. */
  datatype Card = Card(transform: Transform, owner: Owner, pick: Option<Pick>)
  {
    /** The card carries `Hover` and `Selection`, i.e. it can be picked. */
    predicate Pickable() { pick.Some? }

    /** The card matches a query over `Card` and `PlayerOwned`. */
    predicate PlayerCard() { owner == PlayerOwned }

    /** The card matches a query over `Card`, `PlayerOwned` and a picking
        component (`Hover` or `Selection`, which always come together). */
    predicate PlayerPickable() { owner == PlayerOwned && pick.Some? }
  }
}
