/** The documentation sidebar: eight sections of links, each expanded or
    collapsed by clicking its title; the link of the current page is
    highlighted. */
module DocSidebar {
  import opened Common

  datatype DocItem = DocItem(title: string, href: string)

  datatype DocSection = DocSection(title: string, items: seq<DocItem>)

  const DocSections: seq<DocSection> := [
    DocSection("Getting Started", [
      DocItem("Quick Start Guide", "/docs/quick-start"),
      DocItem("First VPS Setup", "/docs/first-setup"),
      DocItem("SSH Connection", "/docs/ssh-connection")]),
    DocSection("Server Management", [
      DocItem("Control Panel Overview", "/docs/control-panel"),
      DocItem("Resource Monitoring", "/docs/monitoring"),
      DocItem("Backup & Snapshots", "/docs/backups"),
      DocItem("Scaling Resources", "/docs/scaling")]),
    DocSection("Security & Hardening", [
      DocItem("Security Best Practices", "/docs/security"),
      DocItem("Firewall Configuration", "/docs/firewall"),
      DocItem("SSL/TLS Setup", "/docs/ssl"),
      DocItem("User Management", "/docs/users")]),
    DocSection("Web Servers", [
      DocItem("Apache Setup", "/docs/apache"),
      DocItem("Nginx Configuration", "/docs/nginx"),
      DocItem("Node.js Applications", "/docs/nodejs"),
      DocItem("PHP & WordPress", "/docs/php")]),
    DocSection("Databases", [
      DocItem("MySQL Installation", "/docs/mysql"),
      DocItem("PostgreSQL Setup", "/docs/postgresql"),
      DocItem("MongoDB Configuration", "/docs/mongodb"),
      DocItem("Redis Cache", "/docs/redis")]),
    DocSection("Game Servers", [
      DocItem("Minecraft Server", "/docs/minecraft"),
      DocItem("CS2 Server Setup", "/docs/cs2"),
      DocItem("Rust Server", "/docs/rust"),
      DocItem("Valheim Server", "/docs/valheim")]),
    DocSection("Performance & Optimization", [
      DocItem("System Optimization", "/docs/optimization"),
      DocItem("Memory Management", "/docs/memory"),
      DocItem("Disk Performance", "/docs/disk"),
      DocItem("Network Tuning", "/docs/network")]),
    DocSection("Troubleshooting", [
      DocItem("Common Issues", "/docs/common-issues"),
      DocItem("Performance Problems", "/docs/performance-issues"),
      DocItem("Network Connectivity", "/docs/network-issues"),
      DocItem("System Recovery", "/docs/recovery")])
  ]

  const InitialExpanded: seq<string> := ["Getting Started"]

  /** The links listed under the expanded sections, section by section. */
  function VisibleLinks(sections: seq<DocSection>, expanded: seq<string>): seq<DocItem>
  {
    if sections == [] then []
    else (if sections[0].title in expanded then sections[0].items else []) + VisibleLinks(sections[1..], expanded)
  }

  /** A link is listed exactly when it belongs to an expanded section. */
  lemma {:induction false} VisibleLinksMembership(sections: seq<DocSection>, expanded: seq<string>, item: DocItem)
    ensures item in VisibleLinks(sections, expanded) <==>
      exists k :: 0 <= k < |sections| && sections[k].title in expanded && item in sections[k].items
  {
    if sections != [] {
      VisibleLinksMembership(sections[1..], expanded, item);
      if item in VisibleLinks(sections[1..], expanded) {
        var k :| 0 <= k < |sections[1..]| && sections[1..][k].title in expanded && item in sections[1..][k].items;
        assert sections[k + 1] == sections[1..][k];
      }
      if exists k :: 0 <= k < |sections| && sections[k].title in expanded && item in sections[k].items {
        var k :| 0 <= k < |sections| && sections[k].title in expanded && item in sections[k].items;
        if k > 0 {
          assert sections[1..][k - 1] == sections[k];
        }
      }
    }
  }

  /** With no section expanded no link is listed. */
  lemma {:induction false} NoneExpandedNoLinks(sections: seq<DocSection>, expanded: seq<string>)
    requires forall k :: 0 <= k < |sections| ==> sections[k].title !in expanded
    ensures VisibleLinks(sections, expanded) == []
  {
    if sections != [] {
      NoneExpandedNoLinks(sections[1..], expanded);
    }
  }

  /** Only the links of "Getting Started" are listed at first. */
  lemma InitialLinks()
    ensures VisibleLinks(DocSections, InitialExpanded) == DocSections[0].items
  {
    var rest := DocSections[1..];
    assert forall k :: 0 <= k < |rest| ==> rest[k].title != "Getting Started";
    NoneExpandedNoLinks(rest, InitialExpanded);
  }

  /** The link of the current page is highlighted. */
  predicate IsActive(pathname: string, item: DocItem)
  {
    pathname == item.href
  }

  /** The sidebar's state. */
  class Sidebar {
    var expanded: seq<string>

    ghost predicate Valid()
      reads this
    {
      NoDup(expanded)
    }

    constructor ()
      ensures Valid() && expanded == InitialExpanded
    {
      expanded := InitialExpanded;
    }

    /** Clicking a section title expands it when collapsed and collapses
        it when expanded, leaving the other sections as they are. */
    method ToggleSection(title: string)
      requires Valid()
      modifies this
      ensures Valid()
      ensures expanded == Toggle(old(expanded), title)
      ensures title in expanded <==> title !in old(expanded)
      ensures forall other :: other != title ==> (other in expanded <==> other in old(expanded))
    {
      ToggleNoDup(expanded, title);
      ToggleMembership(expanded, title);
      expanded := Toggle(expanded, title);
    }
  }
}
