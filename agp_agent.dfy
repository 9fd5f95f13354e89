/**
 * The identity under which the remote agent's server joins the gateway
 * (remote_agent_agp/server/agent/agp_agent.py). The source keeps the three
 * names as class attributes; one object of this class stands for the class.
 */
module AgpIdentity {

  const DefaultOrganization: string := "cisco"
  const DefaultNamespace: string := "default"
  const DefaultLocalAgent: string := "server"

  class AgpAgent {
    var organization: string
    var namespace: string
    var localAgent: string

    /** The class attributes as declared. */
    constructor ()
      ensures organization == DefaultOrganization
      ensures namespace == DefaultNamespace
      ensures localAgent == DefaultLocalAgent
    {
      organization, namespace, localAgent := DefaultOrganization, DefaultNamespace, DefaultLocalAgent;
    }

    /** get_details: the three names under their keys, and nothing else. */
    function Details(): (d: map<string, string>)
      reads this
      ensures d.Keys == {"organization", "namespace", "local_agent"}
      ensures d["organization"] == organization && d["namespace"] == namespace && d["local_agent"] == localAgent
    {
      map["organization" := organization, "namespace" := namespace, "local_agent" := localAgent]
    }

    /** set_details: all three names are replaced together. */
    method SetDetails(org: string, ns: string, agent: string)
      modifies this
      ensures Details() == map["organization" := org, "namespace" := ns, "local_agent" := agent]
    {
      organization, namespace, localAgent := org, ns, agent;
    }

    method GetOrganization() returns (o: string)
      ensures o == Details()["organization"]
    {
      o := organization;
    }

    method GetNamespace() returns (ns: string)
      ensures ns == Details()["namespace"]
    {
      ns := namespace;
    }

    method GetLocalAgent() returns (a: string)
      ensures a == Details()["local_agent"]
    {
      a := localAgent;
    }
  }
}
