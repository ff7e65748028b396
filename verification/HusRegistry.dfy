/** The allow-listed engines and capabilities. */
module HusRegistry {

  datatype Action = Action(engine: string, capability: string)

  const ENGINES: map<string, set<string>> := map[
    "retail" := {"catalog.read", "catalog.write", "register.open", "register.close"},
    "inventory" := {"inventory.read", "inventory.receive", "inventory.issue", "inventory.transfer",
                    "inventory.reserve"},
    "commerce" := {"sales.read", "sales.create", "sales.confirm", "sales.fulfill", "sales.cancel"},
    "procurement" := {"purchasing.read", "purchasing.create", "purchasing.confirm", "purchasing.receive",
                      "purchasing.cancel"},
    "payments" := {"payments.read", "payments.create", "payments.capture", "payments.settle", "payments.reconcile"},
    "logistics" := {"logistics.read", "logistics.create", "logistics.pickup", "logistics.deliver", "logistics.cancel"},
    "finance" := {"finance.read", "finance.post", "finance.reverse"},
    "workflow" := {"workflow.read", "workflow.start", "workflow.transition", "workflow.cancel"},
    "documents" := {"documents.read", "documents.create", "documents.finalize", "documents.void"},
    "marketplace" := {"marketplace.read", "marketplace.seller", "marketplace.catalog", "marketplace.order",
                      "marketplace.payout", "marketplace.moderate"},
    "custom" := {}
  ]

  function CapabilitiesFor(engine: string): set<string> { if engine in ENGINES then ENGINES[engine] else {} }

  predicate EndsWith(s: string, suffix: string) {
    |suffix| <= |s| && s[|s| - |suffix|..] == suffix
  }

  /** A capability is allowed in full, or by what follows one of its dots. */
  predicate Allows(engine: string, capability: string) {
    exists c :: c in CapabilitiesFor(engine) && (c == capability || EndsWith(c, "." + capability))
  }

  predicate Registered(a: Action) { a.engine in ENGINES && Allows(a.engine, a.capability) }

  predicate IsRead(a: Action) { a.capability == "read" || EndsWith(a.capability, ".read") }
}
