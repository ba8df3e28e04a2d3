/**
 * The narrow part of the Docker client the builder talks to, as an engine that
 * records every request in a trace and answers from a script the caller sets.
 */
module Engine {
  import opened Wrappers

  /** Access mode of a bind mount, `'ro'` or `'rw'`. */
  datatype Mode = ReadOnly | ReadWrite

  /** `{'bind': <path in the container>, 'mode': <mode>}`. */
  datatype Bind = Bind(bind: string, mode: Mode)

  /** Host path to its bind. */
  type Binds = map<string, Bind>

  /** What `create_host_config(binds=..., network_mode=...)` describes. */
  datatype HostConfig = HostConfig(binds: Option<Binds>, networkMode: string)

  /** One request to the engine, as the trace records it. */
  datatype Call =
    | Build(dockerfile: string, rm: bool, tag: string)
    | CreateContainer(image: string, user: nat, command: string, hostConfig: HostConfig)
    | Start(container: string)
    | Wait(container: string)
    | Logs(container: string, stdout: bool, stderr: bool)

  /**
   * The engine's answers: the chunks of the image build log, the id of a
   * created container, its exit status and its two output streams.
   */
  datatype Replies = Replies(buildLog: seq<string>, containerId: string, status: int,
                             stdoutLog: string, stderrLog: string)

  /** The text `logs` returns for the streams selected. */
  function LogText(r: Replies, stdout: bool, stderr: bool): string {
    (if stdout then r.stdoutLog else "") + (if stderr then r.stderrLog else "")
  }

  /** A stand-in for `docker.Client`: each method appends its request to `calls`. */
  class DockerClient {
    var calls: seq<Call>
    var replies: Replies

    constructor (replies: Replies)
      ensures calls == [] && this.replies == replies
    {
      calls := [];
      this.replies := replies;
    }

    /** `build(fileobj=..., rm=..., tag=...)`: the streamed build log. */
    method Build(dockerfile: string, rm: bool, tag: string) returns (response: seq<string>)
      modifies this`calls
      ensures calls == old(calls) + [Call.Build(dockerfile, rm, tag)]
      ensures response == replies.buildLog
    {
      calls := calls + [Call.Build(dockerfile, rm, tag)];
      response := replies.buildLog;
    }

    /** `create_container(image=..., user=..., command=..., host_config=...)['Id']`. */
    method CreateContainer(image: string, user: nat, command: string, hostConfig: HostConfig) returns (id: string)
      modifies this`calls
      ensures calls == old(calls) + [Call.CreateContainer(image, user, command, hostConfig)]
      ensures id == replies.containerId
    {
      calls := calls + [Call.CreateContainer(image, user, command, hostConfig)];
      id := replies.containerId;
    }

    /** `start(container=...)`. */
    method Start(container: string)
      modifies this`calls
      ensures calls == old(calls) + [Call.Start(container)]
    {
      calls := calls + [Call.Start(container)];
    }

    /** `wait(container=...)`: the container's exit status. */
    method Wait(container: string) returns (status: int)
      modifies this`calls
      ensures calls == old(calls) + [Call.Wait(container)]
      ensures status == replies.status
    {
      calls := calls + [Call.Wait(container)];
      status := replies.status;
    }

    /** `logs(container=..., stdout=..., stderr=...).decode()`. */
    method Logs(container: string, stdout: bool, stderr: bool) returns (text: string)
      modifies this`calls
      ensures calls == old(calls) + [Call.Logs(container, stdout, stderr)]
      ensures text == LogText(replies, stdout, stderr)
    {
      calls := calls + [Call.Logs(container, stdout, stderr)];
      text := LogText(replies, stdout, stderr);
    }
  }
}
